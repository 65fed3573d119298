/** Values shared by every part of the botodispusb driver model. */
module Basics {

  /** A C `unsigned char` / `u8`. */
  type byte = x: int | 0 <= x < 256

  datatype Option<T> = None | Some(value: T)

  /** Linux errno values; the driver returns them negated. */
  const ENOENT: int := 2
  const ENOMEM: int := 12
  const ENODEV: int := 19
  const ECONNRESET: int := 104
  const ESHUTDOWN: int := 108
  /** Kernel-internal "restart the system call" code returned on a signal. */
  const ERESTARTSYS: int := 512

  function Min(a: int, b: int): int
  {
    if a <= b then a else b
  }
}
