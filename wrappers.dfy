/** Option, Result and Outcome, and the exceptions the phishing-page code can raise. */
module Wrappers {

  datatype Option<+T> = None | Some(value: T)

  /** The Python exceptions that reach the callers of the modelled code. */
  datatype Error =
    | OSError(path: string)            // os.listdir / os.remove on something that is not there
    | IOError(path: string)            // open() or copyfile() could not open a file
    | ShutilError(path: string)        // shutil.Error: copyfile() with the same file as source and destination
    | KeyError(key: string)            // info['name'] / info['description'] missing
    | NoSectionError(section: string)  // ConfigParser: section missing
    | NoOptionError(section: string, option: string)  // ConfigParser: option missing
    | AttributeError(attribute: string)  // an attribute read before it was ever assigned

  /** The value of a call that either returns or raises. */
  datatype Result<+T> = Ok(value: T) | Err(error: Error)

  /** The value of a call that returns nothing or raises. */
  datatype Outcome = Pass | Fail(error: Error)
}
