// Shared vocabulary of the renderer model: fixed-width integers, handles,
// driver result codes and the fatal-error reasons of seb::assertFatal/panic.

module Common {

  /** std::uint32_t */
  newtype u32 = x: int | 0 <= x < 0x1_0000_0000

  /** std::byte */
  newtype byte = x: int | 0 <= x < 0x100

  /** std::numeric_limits<std::uint32_t>::max() */
  const U32Max: int := 0xFFFF_FFFF

  /** static_cast<std::uint32_t> of a std::size_t: keeps the low 32 bits. */
  function ToU32(n: nat): (r: u32)
    ensures n <= U32Max ==> r as int == n
  {
    (n % 0x1_0000_0000) as u32
  }

  /** The width of std::size_t on a 64-bit target. */
  const SizeModulus: int := 0x1_0000_0000_0000_0000

  /** std::size_t */
  type SizeT = x: int | 0 <= x < SizeModulus

  datatype Option<+T> = None | Some(value: T)

  /** A Vulkan / VMA object handle (VkBuffer, VmaAllocation, ...); Null is VK_NULL_HANDLE. */
  datatype Handle = Null | Live(id: nat)

  /** A host pointer as returned by vmaMapMemory; NullPtr is nullptr. */
  datatype Ptr = NullPtr | Address(addr: nat)

  /** A VkResult code other than the ones named below. */
  type OtherCode = c: int | c != 0 && c != 1 && c != 2 && c != 1000001003 && c != -1000001004 && c != -4
    witness -2

  /** The VkResult codes the core distinguishes; every other code is Other. */
  datatype VkResult =
    | Success
    | Timeout
    | NotReady
    | SuboptimalKHR
    | ErrorOutOfDateKHR
    | ErrorDeviceLost
    | Other(code: OtherCode)

  /** The numeric value of a VkResult; only VK_SUCCESS is 0. */
  function Code(r: VkResult): (c: int)
    ensures c == 0 <==> r == Success
  {
    match r
    case Success => 0
    case NotReady => 1
    case Timeout => 2
    case SuboptimalKHR => 1000001003
    case ErrorOutOfDateKHR => -1000001004
    case ErrorDeviceLost => -4
    case Other(c) => c
  }

  /** Why the process aborted (seb::assertFatal, seb::panic, or an exception nobody catches). */
  datatype FatalReason =
    | SizeMismatch
    | AllocatorMismatch
    | MapFailed
    | MappedNull
    | NoSuitableQueue
    | FenceWaitFailed
    | AcquireFailed
    | PresentFailed
    | IndexOutOfRange
    | DescriptorSetCount
    | DrawFrameFailed
    | AllocationFailed

  /** Outcome of an operation whose only failure mode is aborting the process. */
  datatype Status = Done | Fatal(reason: FatalReason)

  /** Outcome of an operation that produces a value or aborts the process. */
  datatype Result<+T> = Ok(value: T) | Err(reason: FatalReason)

  /** The result of one vmaMapMemory call: its VkResult and the pointer it wrote. */
  datatype MapOutcome = MapOutcome(result: VkResult, ptr: Ptr)
}
