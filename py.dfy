/** The pieces of the Python runtime the patch engine relies on: the exceptions
    its operations can raise, a result type to carry them, the list objects that
    callers share by reference, and pickle files on disk. */
module Py {

  datatype Option<T> = None | Some(value: T)

  /** The exceptions the modelled code raises. DrawsExhausted is not a Python
      exception: it says that the random draws handed to the model ran out, where
      the program would have gone on drawing. */
  datatype Error =
    | ValueError
    | IndexError
    | ZeroDivisionError
    | FileNotFoundError
    | UnboundLocalError
    | EOFError
    | DrawsExhausted

  datatype Result<T> = Ok(value: T) | Err(error: Error)

  /** A Python list object: callers hold it by reference and see what pop and
      append do to it. */
  class List<T> {
    var items: seq<T>

    constructor (s: seq<T>)
      ensures items == s
    {
      items := s;
    }

    /** `list.pop()`: removes and returns the last element. */
    method Pop() returns (x: T)
      requires |items| > 0
      modifies this
      ensures old(items) == items + [x]
    {
      x := items[|items| - 1];
      items := items[..|items| - 1];
    }

    /** `list.append(x)` */
    method Append(x: T)
      modifies this
      ensures items == old(items) + [x]
    {
      items := items + [x];
    }
  }

  /** Pickle files: what `pickle_dump` last wrote at each path. `os.path.exists`
      is membership in `files`. */
  class Disk<V(==)> {
    var files: map<string, V>

    constructor (f: map<string, V>)
      ensures files == f
    {
      files := f;
    }

    method Exists(path: string) returns (b: bool)
      ensures b <==> path in files
    {
      b := path in files;
    }

    /** `pickle_dump(v, path)` */
    method Dump(path: string, v: V)
      modifies this
      ensures files == old(files)[path := v]
    {
      files := files[path := v];
    }

    /** `pickle_load(path)`: a missing file raises. */
    method Load(path: string) returns (r: Result<V>)
      ensures path in files ==> r == Ok(files[path])
      ensures path !in files ==> r == Err(FileNotFoundError)
    {
      if path in files {
        r := Ok(files[path]);
      } else {
        r := Err(FileNotFoundError);
      }
    }
  }
}
