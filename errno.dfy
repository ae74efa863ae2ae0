/** Linux error numbers (include/uapi/asm-generic/errno-base.h, errno.h and
    include/linux/errno.h) used by the modelled drivers. Functions return the
    negated value, as the kernel does. */
module Errno {
  const ENOMEM: int := 12
  const EBUSY: int := 16
  const EINVAL: int := 22
  const ENODATA: int := 61
  const ETIMEDOUT: int := 110
  const ERESTART_RESTARTBLOCK: int := 516
}
