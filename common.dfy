/** Option and Result wrappers, and the exceptions the store and the uploaders raise. */
module Common {

  datatype Option<+T> = None | Some(value: T)

  /** One constructor per exception the modelled code can raise (or, for the LMDB image slot, return). */
  datatype Error =
    | FileNotFound        // FileNotFoundError: read mode on a missing path
    | FileExists          // FileExistsError: write mode on an existing path without force
    | InvalidMode         // ValueError: mode other than "r", "w", "a"
    | InvalidExtension    // ValueError: HDF5 path not ending in ".hdf5"
    | EncodeFailed        // image encoding reported failure (Exception / ValueError)
    | MissingKey          // KeyError: a key or dataset that is not there
    | NotANumber          // ValueError from int() on the persisted counter
    | BadUtf8             // UnicodeDecodeError
    | BadJson             // json.JSONDecodeError
    | MissingAttribute    // AttributeError
    | DirectoryNotEmpty   // OSError from Path.rmdir on a non-empty directory
    | EnvironmentMissing  // lmdb.Error: read-only open of a directory without a data file
    | IndexOutOfRange     // dataset index beyond its length
    | ReadOnly            // write through a read-only handle
    | Closed              // any access after close()
    | LabelUnreadable     // json.load on a label file raised something other than FileNotFoundError
    | NotInitialised      // ValueError("Initializer not called.")
    | NegativeLength      // ValueError from len() when __len__ returns a negative number

  datatype Result<+T> = Ok(value: T) | Err(error: Error)

  /** Some element of a non-empty set. */
  lemma Pick<T>(S: set<T>) returns (x: T)
    requires S != {}
    ensures x in S
  {
    assert (forall y :: y !in S) ==> S == {};
    x :| x in S;
  }
}
