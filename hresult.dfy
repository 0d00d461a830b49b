/**
  Status codes of the native graphics calls and the errors the renderer
  reports (src/dx/error.rs and the `anyhow` results of the other files).
 */
module Hr {

  /** A Windows HRESULT: a signed 32-bit status code. */
  newtype HResult = x: int | -0x8000_0000 <= x < 0x8000_0000

  /** `FAILED(hr)`, the test behind `hr_bail!` and behind the `?` on the
      windows crate's results: a status reports failure exactly when it is
      negative. */
  predicate Failed(hr: HResult) {
    hr < 0
  }

  /** Why an operation of the renderer gave up. */
  datatype Error =
    | CallFailed(hr: HResult)  // a native call returned a failing HRESULT
    | NothingReturned          // a native call succeeded but left its out-parameter empty
    | NullPointer              // `ComPtr::new` refused a null pointer (a panic in the source)
    | Misaligned               // the 16-byte size assertion of a constant buffer (a debug-build panic)
    | Overflow                 // a `u32` multiplication overflowed (a debug-build panic)
    | DecodeFailed             // the image file could not be opened or decoded
    | ItemFailed               // an operation of the item layer reported an error
    | SenderFailed             // the publishing collaborator reported an error

  datatype Result<T> = Ok(value: T) | Err(error: Error)

  datatype Option<T> = None | Some(value: T)
}
