/** Constants of the kernel interfaces that the /proc/irq code returns or relies on
    (values of the ARM Linux 2.6 headers), and an Option type for NULL-able values. */
module Kernel {

  /** A value that may be absent, for the C pointers that may be NULL. */
  datatype Option<+T> = None | Some(value: T)

  // Error numbers; the code returns them negated.
  const EIO: int := 5
  const EAGAIN: int := 11
  const EWOULDBLOCK: int := EAGAIN
  const ENOMEM: int := 12
  const EFAULT: int := 14
  const EINVAL: int := 22
  const ERESTARTSYS: int := 512

  /** sizeof(int) on the 32-bit target: the size of one pending count handed to user space. */
  const SIZEOF_INT: nat := 4

  /** The largest value a 32-bit ssize_t can hold. */
  const SSIZE_MAX: nat := 0x7fff_ffff

  /** TASK_COMM_LEN: room for a process name and its terminating NUL. */
  const TASK_COMM_LEN: nat := 16

  /** The value an interrupt handler returns when it handled the interrupt. */
  const IRQ_HANDLED: int := 1

  // Poll event bits.
  const POLLIN: bv32 := 0x0001
  const POLLRDNORM: bv32 := 0x0040
}
