/** The errno values the two recorders return. */
module Errno {

  const ENOENT := 2
  const EIO := 5
  const EAGAIN := 11
  const EEXIST := 17
  const EINVAL := 22
}
