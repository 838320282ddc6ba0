/** Failure values shared by the path resolver, the fallback fetch and the
    LoRA loader. Each constructor stands for one exception the plugin raises. */
module Errors {

  datatype Option<+T> = None | Some(value: T)

  datatype Error =
    /** ValueError: the path contains `..` or `~`. */
    | InvalidPath(path: string)
    /** FileNotFoundError: the (legacy-mapped) folder category is not configured. */
    | CategoryNotFound(category: string)
    /** IndexError: the category's directory list is empty, so there is no first
        directory. Python's error names no category; it is carried here for the reader. */
    | IndexOutOfRange(category: string)
    /** FileNotFoundError: the object-store download reported failure. */
    | FetchFailed(bucket: string, key: string)
    /** RuntimeError: the fallback path is a regular file although the scan
        found none (only possible if the disk changed between the probes). */
    | ShouldNotHappen(path: string)

  datatype Result<+T> = Ok(value: T) | Err(error: Error)
}
