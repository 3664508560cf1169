# Echo device and attribute map: a verified Dafny model

This project models two small pieces of a FreeBSD experiment that passes
name/value lists (libnv "nvlists") between a user program and a kernel
module:

- **The name-keyed attribute map** (program/structure.c). Attribute records
  (`attr_t`) carry a name, a type flag and a value. They are kept in a
  red-black tree ordered by `strcmp` on the name, and `RB_INSERT` refuses a
  second attribute with a stored name. The `main` driver inserts six
  attributes that are all named "cvrc". Module `Structure` (structure.dfy)
  holds the `ATTR_*` flags and masks and a model of `strcmp` over NUL-free
  byte names. Its `Strcmp` contract ties the sign of the result to an
  independent definition of byte-wise lexicographic order (`NameLess`), and
  lemmas show that order is a strict total order. The tree is a class
  `Params` whose field `nodes` is the tree's in-order walk. Its invariant is
  that names strictly increase. `Insert` either returns the stored attribute
  with the same name and changes nothing, or splices the new node in at its
  place. `RunMain` is the insertion loop of `main`.
- **The echo character device** (kernel/main.c). The driver has two globals:
  `message`, a 257-byte buffer with a length, and `nvl`, a single stored
  nvlist. Module `Echo` (echo.dfy) models them as the class `Device<L>`:
  `buffer` is an array, null while the module is not loaded, and `length`
  and `nvl` are fields. `L` is the opaque nvlist type. `nvlist_size`,
  `nvlist_pack` and `nvlist_unpack` are the three functions of a `Libnv<L>`
  value given to the device. The kernel copy primitives `uiomove`, `copyin`
  and `copyout` are modelled by a `Copy` parameter. That parameter says
  whether every byte moves or the copy faults after some number of bytes,
  in which case the call returns EFAULT. `Write`, `Read`, the three ioctl
  modes, the ioctl dispatch and `ModEvent` follow the driver's branches.
  The loader's get and set requests from program/main.c are scenario
  methods over the ioctl model.
- module `Common` (common.dfy) holds `byte`, `u64`, `Option` and `Min`.

`message->length` is never initialised after the `malloc` at
kernel/main.c:147. In this model a freshly loaded device starts with
length 0. A read before any write therefore returns nothing, whereas the
C code reads whatever the allocation left behind.

## Model

| member | source | states |
|---|---|---|
| Structure.TypeFlagsAreDistinctBits | program/structure.c:11-20 | BOOL, NUMBER, STRING, NULL, ARRAY and NESTED are each a single bit and pairwise disjoint; RO and NODELETE are distinct single bits; no type flag overlaps the JID mask |
| Structure.MaskContents | program/structure.c:11-21 | the simple mask contains exactly BOOL, NUMBER, STRING and NULL, not ARRAY or NESTED, and no other bit; the JID mask is exactly RO and NODELETE and is disjoint from every type bit |
| Structure.Strcmp | program/structure.c:82-84 | `strcmp` on two names is 0 exactly when they are equal, negative exactly when the first is lexicographically below the second, positive exactly when it is above |
| Structure.AttrNameCompare | program/structure.c:82-84 | the comparator is 0 exactly for equal names and its sign follows the byte-wise lexicographic order of the names |
| Structure.NameLessTransitive | program/structure.c:82-86 | the lexicographic order the tree relies on is transitive |
| Structure.NameOrderIsStrictTotal | program/structure.c:82-86 | the order is irreflexive, asymmetric, transitive and total on distinct names, as a red-black tree's comparator must be |
| Structure.SortedWalkHasUniqueNames | program/structure.c:79-86 | in a strictly increasing in-order walk no two attributes share a name and the comparator orders each attribute before every later one |
| Structure.Attr.NewNumber | program/structure.c:88-93 | `new_number` yields a fresh node whose name is the argument, whose type is ATTR_NUMBER and whose value is unset |
| Structure.Params.constructor | program/structure.c:99-100 | `RB_INIT` gives an empty tree, which satisfies the ordering invariant |
| Structure.Params.Locate | program/structure.c:86 | the insert descent finds the attribute with the given name exactly when one is stored; every attribute before the returned position is below the name and, when nothing is found, every one from it on is above |
| Structure.SpliceKeepsSorted | program/structure.c:106 | placing an attribute between every stored attribute below its name and every one above keeps the in-order walk strictly increasing |
| Structure.SpliceNames | program/structure.c:106 | linking a node into the walk adds exactly its name to the set of stored names |
| Structure.Params.Insert | program/structure.c:106 | the ordering invariant is kept; a duplicate name returns the stored attribute and leaves the walk unchanged; otherwise the new node is spliced into the walk with every other attribute kept in order, null is returned, and the name set gains just that name |
| Structure.RunMain | program/structure.c:95-108 | after inserting six "cvrc" nodes with values 0 to 5, the tree holds exactly one attribute, named "cvrc", of type NUMBER, with value 0 |
| Common.Min | kernel/main.c:65 | `MIN` gives a value no larger than either argument and equal to one of them |
| Echo.Moved | kernel/main.c:66 | a copy of n bytes moves at most n; all n when it completes; when it faults, all n exactly when the fault lies at or past n, and otherwise the bytes before the fault |
| Echo.CopyError | kernel/main.c:111 | a copy (`uiomove`, `copyin` or `copyout`, also at kernel/main.c:85 and 119) returns 0 or EFAULT, and 0 exactly when every byte moved |
| Echo.WriteAmount | kernel/main.c:65 | the write takes min(resid, 256) bytes: no more than asked for or than the buffer holds, and all of the request when it fits; the terminator index is inside the 257-byte array |
| Echo.ReadAmount | kernel/main.c:82-84 | the read amount never exceeds the residual count, never reaches past the stored length, is as large as both allow, and is 0 exactly when nothing is asked for or the offset is at or past the length |
| Echo.Device.constructor | kernel/main.c:43-45 | before loading there is no message and no stored list |
| Echo.Device.ModEvent | kernel/main.c:139-161 | load allocates a fresh 257-byte buffer with length 0; unload drops the buffer and the stored list; any other event returns EOPNOTSUPP and changes nothing |
| Echo.Device.Write | kernel/main.c:59-74 | the first min(resid, 256) bytes of the user data land at index 0 whatever the offset; on success the length is that amount, a NUL follows it and the rest of the buffer is untouched; on a fault EFAULT is returned, the bytes moved so far stay, the length is unchanged and the rest of the buffer is untouched; 0 <= length <= 256 throughout |
| Echo.Device.Read | kernel/main.c:76-89 | the bytes returned are buffer[offset..offset+k] for the amount k moved, all inside [offset, length); the error is EFAULT exactly when the copy stopped short; the uio advances by k; the message is not changed |
| Echo.Device.IoctlQuery | kernel/main.c:99-104 | with no stored list: length 0 and ENOMEM; otherwise the stored list's size and 0; the stored list is unchanged |
| Echo.Device.IoctlFetch | kernel/main.c:105-115 | with no stored list: ENOMEM and nothing written; otherwise the packed bytes (a prefix of them on a fault) are written, the length becomes the packed length only on success, EFAULT is returned on a fault; the stored list is unchanged |
| Echo.Device.IoctlStore | kernel/main.c:116-130 | on a copy-in fault EFAULT is returned and the previous stored list is kept; otherwise the stored list becomes whatever the copied bytes unpack to, possibly nothing |
| Echo.Device.Ioctl | kernel/main.c:91-137 | a command other than ECHO_IOCTL returns ENOTTY and changes nothing; ECHO_IOCTL selects the query, fetch or store by `buf` and `len`, and only a store whose copy succeeds changes the stored list |
| Echo.SetSequence | program/main.c:81-95 | handing the device a non-empty packed list stores what it unpacks to when the copy succeeds, and keeps the old list otherwise |
| Echo.GetSequence | program/main.c:98-113 | the size query then the fetch: with nothing stored the first request fails with ENOMEM; otherwise the bytes received are the packed list, or a prefix of it on a fault, and fit the buffer sized by the query whenever libnv's size equals the packed length; the stored list does not change |
| Echo.SetThenGet | program/main.c:81-113 | when the bytes sent unpack to a list and both copies succeed, a later get returns exactly that list packed |
| Echo.EchoBack | kernel/main.c:59-89 | after a successful write, a read from offset 0 returns the data written, truncated to 256 bytes and to the read size, whatever offset the write had |

## Left out

- libnv: `nvlist_size`, `nvlist_pack`, `nvlist_unpack` and `nvlist_destroy` are not part of this model. No byte layout is assumed. The three functions are parameters of the device, and the scenarios state what they rely on (size equal to packed length, unpack of the bytes sent) as preconditions.
- Echo.Device.IoctlFetch: `nvlist_pack` is taken to succeed. A NULL result, which would reach `copyout`, is not modelled. The size computed at kernel/main.c:109 is overwritten by `nvlist_pack` and plays no part.
- Echo.Device.IoctlFetch: the size of the user's buffer is not checked by the driver (kernel/main.c:111). The model reports the bytes written but not where they land in user memory.
- Echo.Device.Ioctl: the ioctl system call copies the `nvecho_t` back to the user only when the driver returns 0. The model returns the driver's view of the argument (`out`), so the length 0 set on the ENOMEM query path is never seen by a real caller.
- Echo.Device.IoctlStore: the `M_WAITOK` allocation of the kernel copy is taken to succeed, and its free is not modelled.
- Echo.Device.ModEvent: `make_dev`, `destroy_dev`, `uprintf` and module registration (`DEV_MODULE`) are left out. Unload models `free(message)` and `nvlist_destroy(nvl)` as the buffer and the stored list becoming absent.
- Echo.Device.ModEvent: the freshly allocated length is 0, while the C code leaves it uninitialised. The buffer's initial bytes are whatever Dafny allocation gives, and no contract depends on them.
- Echo.Device.Write and Echo.Device.Read: `struct uio` is reduced to its residual count and offset. `uiomove` is modelled only by how many bytes it moves and whether it faults. The offset is a natural number with no 64-bit limit.
- `echo_open` and `echo_close` only return 0, so they are not modelled.
- The "Write failed." and "Read failed." messages, and `printf` in `main`, are output only.
- Structure.Params.Locate: the red-black tree's shape, colours and rebalancing are not modelled. Only its in-order walk is. The descent is modelled as a binary search over that walk, which finds the same attribute or the same insertion place.
- Structure.Attr.NewNumber: the name is a constant of the node, because the source sets it once and never changes it. The union's bool member is kept in the value type but nothing in the source stores a bool.
- Structure.RunMain: it returns the tree instead of the exit status 0. The rejected nodes, which the source leaks, are not tracked.
- Memory lifetime: leaks and ownership are not modelled, nor is the never-freed packed buffer at kernel/main.c:110.
- Concurrency: the driver's globals are shared without locks. The model assumes one call at a time.
- The commented-out code in program/structure.c (lines 23-60, 105 and 110-117) does not execute and is not modelled.
- program/main.c is not modelled beyond the set and get requests: option parsing, the UCL parser, `open` and `err` exits are all left out.
- No encoder for attribute trees is modelled; the packed layout is libnv's and stays opaque.
