# Weenix kernel: virtual memory, scheduling, processes and path lookup in Dafny

A Dafny 4.11 model of four parts of a Weenix teaching kernel, with proofs.
`dafny verify dfyconfig.toml` checks all of it.

**Virtual memory.** A memory object is anonymous, a file, or a shadow over another
object; its resident pages own one reference each. `View` walks down a shadow chain
to the first resident copy of a page, else to what the bottom object provides, and
is the meaning everything else is measured by. `Memory` defines it together with
exact reference accounting and what one `put` means. `PageIn` covers lookups at any
chain depth. `AddressSpace`, `Unmap` and `Fork` cover area lists. `VmSystem`,
`VmSteps` and `VmRuns` put them together: what each system-wide step does to what
each process sees, and what holds in every run. The main results over all runs are
exact accounting (`RunInv`), no leak (`NoLeak`), isolation of private stores
(`PrivateWriteMeaning`) and the refinement theorem (`BootRefines`): in every run,
with private and shared mappings, stores, evictions and unlinks, copy-on-write with
shadow chains is indistinguishable from areas that keep their own copies over shared
pages, with fork copying all of them at once. `Flatten` and `FlatStores` say how a
chain is flattened and what each operation does to the flat form, `VmRefine` puts
that together. `VmCases` says who sees a shared store and when it is lost, with runs
from boot. `MemImpl`, `VmImpl`, `Access` and `Brk` are the code in its own form,
classes and loops that change state in place, each method proved equal to its
specification; `BrkRuns` mixes brk with all other operations, and `BrkCases` is a run. `PageCache` is the
resident-page index of pframe.c with its hash chains, lists and counters, the dirty
flag and the disk.

**Scheduling.** `Sched` is a state machine whose steps are the stretches of code
between two calls of sched_switch: run queue, wait queues, cancellable sleeps and
mutexes with direct hand-off. Invariants hold in every run from boot; dispatch order
and lock waiting are bounded, and nobody overtakes a waiter. `SchedImpl` is the code,
with lists linked at the head and taken from the tail; `SchedCases` is a run.

**Processes.** `ProcTree` is the process table: pids, parent and child links,
re-parenting at exit, and waitpid with its sleeps. `ProcImpl` is the code, `ProcCases`
holds the runs on which it fails.

**Paths.** `Namev` says what a path means, a fold of lookup over its components, and
which vnode references a call leaves. `NamevImpl` is the scanner that cuts up a copy
of the path in place.

## Where the code does not do what it promises

For each, the model does what the code does; a lemma gives the exact condition, and
where one is named second, it gives inputs or a run from boot.

- A failed fill leaves its frame resident (kernel/mm/pframe.c:339-343), so a write
  fault past the end of a private file mapping puts arbitrary bytes in the page:
  `PageIn.WriteIsInvisibleIff`, `VmCases.StoreIsJunk`.
- handle_pagefault never marks a page dirty, so a store through a shared file
  mapping is lost when the page is evicted: `VmCases.SharedStoreLostIff`,
  `VmCases.StoreGone`.
- vmmap_find_range does not check the size of a request in an empty address space:
  `AddressSpace.FindRange`, and what becomes of the map: `VmImpl.Vm.Map`.
- The last page of a multi-page copy is one byte short (kernel/vm/vmmap.c:782):
  `Access.VmmapRead`.
- A cancel that lands after lock hand-off gives -EINTR to the holder, against the
  comment of kmutex_lock_cancellable: `Sched.InterruptedHoldsIff`,
  `Sched.HandOffThenCancel`, `SchedCases.InterruptedHolder`.
- proc_create does not look at a failed _proc_getid, so pid -1 can be given twice:
  `ProcTree.CreateUniqueIff`, `ProcCases.PidGivenTwice`.
- Re-parenting a zombie does not wake init: `ProcTree.StuckIff`,
  `ProcTree.OnlyExitSticks`, `ProcCases.InitMissesZombie`.
- proc_cleanup re-parents only to a living init: `ProcTree.ExitOkIff`,
  `ProcCases.InitExitsWithChild`, `ProcCases.ExitsAfterInit`.
- dir_namev keeps a reference when it stops at an over-long component that is
  neither first nor last (kernel/fs/namev.c:199-202): `Namev.DirNamevRefsIff`,
  `Namev.LeftBehind`.
- A heap page given up with brk and taken back is not cleared. It shows zeroes exactly
  if no heap was left in between or it showed zeroes before: `Brk.BackAsZeroesIff`,
  `BrkCases.StoreComesBack`.

## Model

| member | source | states |
|---|---|---|
| Memory.ReleaseInv | kernel/vm/shadow.c:119-153 | Dropping a held reference, cascade included, keeps every count equal to resident pages plus shadows above plus outside holders |
| Memory.DyingIsUnheld | kernel/vm/anon.c:98-132 | An object whose only remaining references are its own pages has no shadow over it and no holder |
| Memory.EraseInv | kernel/vm/shadow.c:119-153 | After a dying object is erased, the reference it had below is accounted to its releaser |
| Memory.ReleaseTrims | kernel/vm/shadow.c:119-153 | A put only removes objects; the survivors keep their kind and their pages |
| Memory.ReleaseKeepsViews | kernel/vm/shadow.c:119-153 | No surviving object shows other content after a put |
| Memory.AliveIsReachable | kernel/vm/shadow.c:119-153 | Every live anonymous or shadow object lies on the chain of some outside holder |
| Memory.ReleaseFreesExactlyGarbage | kernel/vm/shadow.c:119-153 | An anonymous or shadow object survives a put if and only if a remaining holder still reaches it |
| Memory.NoHolderNoObject | kernel/vm/anon.c:98-132 | When only files are held, no anonymous or shadow object is alive |
| PageIn.CachedBottomIsBottom | kernel/vm/shadow.c:162-200 | The cached bottom object is the real end of the chain |
| PageIn.AddObjInv | kernel/vm/anon.c:55-74 | A new object keeps the accounting exact; a new shadow takes over its creator's reference below |
| PageIn.AddShadowInv | kernel/vm/shadow.c:69-94 | Putting a new shadow over an object keeps the accounting exact |
| PageIn.AddShadowViews | kernel/vm/shadow.c:69-94 | A new shadow shows what lies below it and changes no other view |
| PageIn.ReadIsInvisible | kernel/vm/shadow.c:162-200 | A read lookup at any chain depth delivers the view, keeps the accounting, and changes no object's view of any page |
| PageIn.WriteDelivers | kernel/vm/shadow.c:162-233 | A write lookup ends on a frame of the object asked, holding what the chain showed, with the accounting exact even on failure |
| PageIn.WriteSameViews | kernel/vm/shadow.c:210-233 | Copying a page up into the top shadow changes no view |
| PageIn.WriteIsInvisibleIff | kernel/mm/pframe.c:297-351 | A write lookup is invisible if and only if there is content to copy or the object is no shadow |
| PageIn.PutIsPrivate | kernel/vm/pagefault.c:100-129 | New content in a page of an object nothing shadows changes that page of that object and nothing else |
| PageIn.StoreShows | kernel/vm/pagefault.c:100-129 | A store shows exactly at the objects whose chain first meets the stored frame |
| AddressSpace.LookupArea | kernel/vm/vmmap.c:253-270 | The scan finds the area covering a page, or none |
| AddressSpace.IsRangeEmpty | kernel/vm/vmmap.c:645-666 | True if and only if no area meets the range |
| AddressSpace.FindLowest | kernel/vm/vmmap.c:163-248 | The low-to-high scan finds the least free run that fits, or -1 if there is none |
| AddressSpace.FindHighest | kernel/vm/vmmap.c:163-248 | The high-to-low scan finds the greatest free run that fits, or -1 if there is none |
| AddressSpace.FindRange | kernel/vm/vmmap.c:163-248 | The result is the best fit if and only if the list is non-empty or the request is no larger than the user range (or its 32-bit answer reads as -1) |
| AddressSpace.InsertArea | kernel/vm/vmmap.c:113-154 | The scan inserts where the specification says |
| AddressSpace.InsertMembers | kernel/vm/vmmap.c:113-154 | The new list holds the old areas and the new one |
| AddressSpace.InsertOrdered | kernel/vm/vmmap.c:113-154 | Inserting into a gap keeps the list sorted and disjoint |
| AddressSpace.InsertFind | kernel/vm/vmmap.c:113-154 | Inserting overrides exactly the pages of the new area |
| Unmap.CutOneInv | kernel/vm/vmmap.c:525-631 | Each of the four cases of removal keeps the accounting exact |
| Unmap.CutOneViews | kernel/vm/vmmap.c:525-631 | No object another holder has changes its view |
| Unmap.CutOneFind | kernel/vm/vmmap.c:525-631 | What is left covers exactly the pages outside the range, with the same object page, protection and sharing |
| Unmap.CutOneShows | kernel/vm/vmmap.c:526-595 | Every piece shows what the whole area showed |
| Unmap.CutOneSole | kernel/vm/vmmap.c:526-595 | A private top held elsewhere keeps exactly one outside holder |
| Unmap.CutAllBacked | kernel/vm/vmmap.c:515-639 | Unmapping a range keeps the accounting, one private top per private area, and everyone else's view |
| Unmap.CutAllAt | kernel/vm/vmmap.c:515-639 | Unmapping is restriction: nothing inside the range, protection and content unchanged outside |
| Unmap.CutAllOrdered | kernel/vm/vmmap.c:515-639 | The list stays sorted, disjoint and without empty areas |
| Unmap.SoleIsHeldOnce | kernel/proc/fork.c:106-167 | A private top occurs exactly once among all holders and has no shadow over it |
| Fork.ChildAllOk | kernel/proc/fork.c:101-140 | The first loop gives the child a list showing what the parent's shows, tops of its own, and exact accounting |
| Fork.ParentAllOk | kernel/proc/fork.c:142-167 | The second loop moves the parent to new tops showing the same, with exact accounting |
| Fork.CopiesAt | kernel/proc/fork.c:101-167 | A copied list shows at every page what the original showed |
| Fork.BackWithOk | kernel/vm/vmmap.c:403-474 | The object behind a new mapping shows zeroes or the file, is the area's own if private, and nobody else sees a change |
| VmSystem.ReplaceInv | kernel/vm/vmmap.c:348-639 | Replacing one space's memory and list by ones others can live with keeps the system invariant |
| VmSystem.ReplaceAt | kernel/vm/vmmap.c:348-639 | Such a replacement changes what that space shows and no other |
| VmSteps.UnmapMeaning | kernel/vm/vmmap.c:515-639 | System-wide: one space loses exactly the range, every other page of every space shows the same |
| VmSteps.MapMeaning | kernel/vm/vmmap.c:348-484 | System-wide: mapping overrides exactly [start, start+npages) with zeroes or the file |
| VmSteps.MapIsAdd | kernel/vm/vmmap.c:374-474 | Where nothing is mapped, mapping is adding one area |
| VmSteps.ExtendMeaning | kernel/vm/brk.c:142-148 | Moving an area's end up keeps the invariant; the new pages show what the object holds there, every other page of every space the same |
| VmSteps.DestroyMeaning | kernel/vm/vmmap.c:75-107 | Destroying a map empties that space and changes no other |
| VmSteps.ForkMeaning | kernel/proc/fork.c:101-167 | After fork parent and child both show the parent's pages before it, others are unchanged, invariant restored |
| VmSteps.ReadFaultMeaning | kernel/vm/pagefault.c:100-129 | A read fault is invisible to every process |
| VmSteps.WriteIsPrivate | kernel/vm/pagefault.c:100-129 | A write through a top with one holder changes one page of one object |
| VmSteps.PrivateObjIsOwn | kernel/proc/fork.c:106-167 | No two areas of the system share a private area's object |
| VmSteps.WriteFaultInv | kernel/vm/pagefault.c:51-145 | A write fault and its store keep the system invariant, fill failing or not |
| VmSteps.PrivateWriteMeaning | kernel/vm/pagefault.c:51-145 | Isolation: a store through a private area changes that one page for that one process |
| VmSteps.OpenMeaning | kernel/fs/vnode.c:114-203 | A vnode coming into use, held once, is invisible to every process |
| VmSteps.RefMeaning | kernel/fs/vnode.c:104-112 | One more reference on a vnode is invisible |
| VmSteps.CloseMeaning | kernel/fs/vnode.c:228-303 | A vput by an outside holder, freeing or not, keeps the invariant and is invisible |
| VmSteps.UnlinkFileMeaning | kernel/fs/vnode.c:242-243 | Losing its last link is invisible while a vnode is in use and keeps the invariant |
| VmSteps.EvictInv | kernel/mm/pframe.c:552-585 | Evicting any resident page, of a file, an anonymous object or a shadow, keeps the accounting exact |
| VmSteps.EvictMeaning | kernel/mm/pframe.c:552-585 | Evicting a page that is on disk is invisible to every process |
| VmSteps.DropIsInvisibleIff | kernel/vm/pagefault.c:100-129 | Dropping a resident file page is invisible if and only if its content is on disk |
| VmRuns.StepInv | kernel/vm/vmmap.c:554-592 | Every enabled operation keeps the system invariant |
| VmRuns.RunInv | kernel/vm/vmmap.c:554-592 | Exact reference accounting, order and private tops in every run |
| VmRuns.NoLeak | kernel/vm/vmmap.c:75-107 | In every run from boot, with all maps empty no anonymous or shadow object is alive |
| Flatten.ViewIsFlat | kernel/vm/shadow.c:162-200 | What an object shows is the nearest copy on its chain, else the page of the object at the end |
| Flatten.CutAllFlat | kernel/vm/vmmap.c:515-639 | Unmapping, with its new shadows and its put cascade, is restriction of the flat list |
| Flatten.ForkFlat | kernel/proc/fork.c:101-167 | After both loops of fork the flat lists of parent and child equal the parent's before |
| FlatStores.TopWriteFlat | kernel/vm/shadow.c:162-233 | A store through a private top sets one copy of the flat area, junk if nothing was below |
| FlatStores.BaseWrite | kernel/vm/pagefault.c:100-129 | A store to a bottom object changes one of its pages, if there is content, and no chain |
| FlatStores.EvictFlat | kernel/mm/pframe.c:552-585 | Evicting a page of a private top loses exactly that copy |
| VmRefine.RefinesShows | kernel/vm/shadow.c:162-200 | Related systems show every process the same at every page |
| VmRefine.StepRefines | kernel/proc/fork.c:101-167 | Every operation, shared stores and evictions included, refines its counterpart without shadow chains |
| VmRefine.RunRefines | kernel/proc/fork.c:101-167 | The two systems stay related in every run |
| VmRefine.BootRefines | kernel/proc/fork.c:101-167 | After every run from boot each process sees at each page what it would if areas kept their own copies and fork copied them all |
| VmCases.SharedWriteMeaning | kernel/vm/pagefault.c:51-145 | In every run a store through a shared area changes exactly the pages, of any process, that show the same object page and have no copy of it |
| VmCases.ForkShares | kernel/proc/fork.c:101-167 | After a fork in any run, what parent or child stores through a shared area both see |
| VmCases.EvictShows | kernel/mm/pframe.c:552-585 | In every run, freeing a file page takes those who see the page itself back to the disk and nobody else |
| VmCases.SharedStoreLostIff | kernel/vm/pagefault.c:100-129 | In every run, after a store through a shared area and the freeing of its page, which then is a file's, all see what they saw after the store if and only if the stored page is what is on disk; otherwise the page on disk is back |
| VmCases.StoreGone | kernel/vm/pagefault.c:100-129 | A run from boot (open, map shared, store, free) in which the store is gone, for all contents |
| VmCases.StoreIsJunk | kernel/mm/pframe.c:339-343 | A run from boot in which a store past the end of a private file mapping leaves the frame's arbitrary content |
| MemImpl.HolderMayPut | kernel/vm/shadow.c:119-153 | In an accounted state an outside holder meets the assertions of put all the way down the chain |
| MemImpl.DyingOrder | kernel/vm/shadow.c:140-153 | Putting the object below before freeing the shadow comes to the same as freeing first |
| MemImpl.ReleaseKeepsAbove | kernel/vm/shadow.c:140-153 | A put changes nothing about objects above, so what put reads of its object after the nested put is what it left |
| MemImpl.FreedOnce | kernel/vm/shadow.c:119-153 | The objects freed by a put are those gone afterwards, each freed once |
| MemImpl.PagePutOk | kernel/vm/shadow.c:119-153 | Freeing one page of a dying object, which puts it again, may proceed and leads to the same end |
| MemImpl.ReclaimPage | kernel/fs/vnode.c:228-303 | Freeing a page of a vnode being reclaimed re-enters vput, which only drops a count |
| MemImpl.MemStore.Ref | kernel/vm/anon.c:81-88 | One reference more |
| MemImpl.MemStore.AnonCreate | kernel/vm/anon.c:55-74 | A fresh anonymous object with one reference |
| MemImpl.MemStore.ShadowCreate | kernel/vm/shadow.c:69-94 | A fresh shadow caching the real bottom of its chain |
| MemImpl.MemStore.UnpinFully | kernel/mm/pframe.c:448-471 | The pin count reaches zero and nothing else changes |
| MemImpl.MemStore.SlabFree | kernel/vm/shadow.c:150-150 | Only an object that exists, with no references and no pages, is freed; the free is logged |
| MemImpl.MemStore.PutBelow | kernel/vm/shadow.c:145-147 | The nested put leaves the dying shadow as it is; erasing it then is Release, and the frees are in order |
| MemImpl.MemStore.ReclaimPages | kernel/fs/vnode.c:249-265 | The reclaim loop frees every page of the vnode and no object |
| MemImpl.MemStore.DropLast | kernel/fs/vnode.c:272-303 | One reference fewer; with the last one the vnode is freed |
| MemImpl.MemStore.PframeFree | kernel/mm/pframe.c:552-585 | The page goes and its reference is put, re-entrantly |
| MemImpl.MemStore.Put | kernel/vm/shadow.c:119-153 | The mutual recursion terminates and equals Release |
| MemImpl.MemStore.FreeLastPage | kernel/vm/anon.c:98-132 | The page loop entered with only page references left ends the object, each page freed once |
| MemImpl.MemStore.ObjPut | kernel/vm/shadow.c:119-153 | anon_put and shadow_put equal Release for any number of pages and any chain depth, and free exactly the objects Freed lists, in that order |
| MemImpl.MemStore.VnodePut | kernel/fs/vnode.c:228-303 | vput with its reclaim loop equals Release: no nested reclaim, the vnode freed exactly once if it dies |
| MemImpl.MemStore.PframeAlloc | kernel/mm/pframe.c:226-256 | A frame with arbitrary content becomes resident and owns a reference |
| MemImpl.MemStore.LookupBase | kernel/fs/vnode.c:616-627 | Lookup in a bottom object equals its specification |
| MemImpl.MemStore.LookupForRead | kernel/vm/shadow.c:162-200 | The loop down the chain equals the recursive read lookup |
| MemImpl.MemStore.LookupForWrite | kernel/vm/shadow.c:162-233 | Allocate, then fill from below, equals the write lookup |
| VmImpl.InsertBetween | kernel/vm/vmmap.c:113-154 | Insertion during iteration lands right behind the areas that start earlier |
| VmImpl.Vm.Split | kernel/vm/vmmap.c:526-595 | Case 1 yields the two pieces and the new shadows of the specification |
| VmImpl.Vm.RemoveAt | kernel/vm/vmmap.c:525-631 | The loop body cuts the area at its position and leaves the others |
| VmImpl.Vm.Remove | kernel/vm/vmmap.c:515-639 | The loop, inserting while iterating, equals the unmap step |
| VmImpl.Vm.Destroy | kernel/vm/vmmap.c:75-107 | The loop equals unmapping the whole user range |
| VmImpl.Vm.Fork | kernel/proc/fork.c:101-167 | Both loops together equal the fork step |
| VmImpl.Vm.ForkChild | kernel/proc/fork.c:101-140 | The first loop equals the child's copy |
| VmImpl.Vm.ChildArea | kernel/proc/fork.c:106-138 | The child's side of one area |
| VmImpl.Vm.ForkParent | kernel/proc/fork.c:142-167 | The second loop equals the parent's move |
| VmImpl.Vm.ParentArea | kernel/proc/fork.c:143-166 | The parent's side of one area |
| VmImpl.Vm.MakeRoom | kernel/vm/vmmap.c:374-399 | A given range is cut free, or the range search answers, best fit except for an oversized request in an empty space; -1 changes nothing |
| VmImpl.Vm.AddArea | kernel/vm/vmmap.c:403-474 | The objects and the area of a new mapping |
| VmImpl.Vm.Map | kernel/vm/vmmap.c:348-484 | Fails if and only if the search does; otherwise equals the map step at the start found. The map stays valid if and only if the request was not an oversized one in an empty space |
| Access.AddrPerm | kernel/api/access.c:123-153 | True if and only if the page lies in an area granting the permission |
| Access.RangePerm | kernel/api/access.c:164-179 | Page-wise result, wrap-around included; for non-empty non-wrapping ranges true if and only if every byte is granted |
| Access.BytesAreInPages | kernel/api/access.c:164-179 | Checking the pages of a range is checking its bytes |
| Access.HandlePagefault | kernel/vm/pagefault.c:51-145 | Killed with nothing changed exactly when the access is not permitted; otherwise the lookup's result, failing exactly where there is no content, and the new state in both cases, the junk frame of a failed private write included |
| Access.LookupPage | kernel/vm/pagefault.c:100-112 | The lookup of a permitted fault keeps the invariant and ends as Faulted says |
| Access.FaultedOk | kernel/vm/pagefault.c:100-129 | Invisible if there is content, the page then resident where the lookup says, a private write in the area's own top |
| Access.FaultReady | kernel/vm/pagefault.c:100-129 | At a mapped page both lookups keep the invariant and deliver what the process sees |
| Access.ReadPage | kernel/vm/vmmap.c:691-802 | One page of the copy is what the process sees there |
| Access.CopyStep | kernel/vm/vmmap.c:691-802 | Consecutive pages of a copy meet without gap or overlap |
| Access.GrantedIsMapped | kernel/api/access.c:164-179 | A range that was granted is mapped throughout |
| Access.VmmapRead | kernel/vm/vmmap.c:676-804 | Succeeds if and only if every page has content; delivers the bytes in order, all within one page, all but the last when pages are crossed |
| Access.CopyFromUser | kernel/api/access.c:23-29 | Granted if and only if every byte is readable; a granted copy never meets an unmapped page, succeeds if and only if every page has content, and delivers the bytes in order, with the last one missing as in vmmap_read |
| Brk.MapInGap | kernel/vm/brk.c:132-141 | Mapping above the data area adds exactly one area there |
| Brk.ShrinkShape | kernel/vm/brk.c:150-157 | Unmapping the top of the heap shortens the heap area or removes it |
| Brk.AreaAt | kernel/vm/vmmap.c:253-270 | The scan finds the position of the first area covering a page |
| Brk.HeapIsAt | kernel/vm/brk.c:67-98 | The areas of data and heap and the one above are neighbours in the list, so do_brk's lookups and its one step along the list find them |
| Brk.BrkMeaning | kernel/vm/brk.c:124-161 | Every move of the break in its bounds keeps all other areas and a heap of one area or none; pages given up show nothing, pages gained zeroes or what the heap object holds, all others the same |
| Brk.BrkBack | kernel/vm/brk.c:124-161 | Moving the break down and up again within the heap area restores the state exactly, old content included |
| Brk.BrkAgain | kernel/vm/brk.c:124-161 | After the break went down and up again, to any page below the next area, the pages gained show zeroes if no heap was left in between, else what the heap's object held there before |
| Brk.BackAsZeroesIff | kernel/vm/brk.c:124-161 | A page given up and taken back shows zeroes if and only if no heap was left in between or it showed zeroes before; a page above the old break, if and only if no heap was left or the heap's object holds zeroes there |
| BrkCases.StoreComesBack | kernel/vm/brk.c:124-161 | A run from boot: brk up two pages, store in the upper one, brk down one page (it shows nothing), brk up again (it shows what was stored), for all contents |
| Brk.Heap.constructor | kernel/vm/brk.c:67-79 | The loader's state: no heap, the break at its start |
| Brk.Heap.BreakInBounds | kernel/vm/brk.c:81-102 | start_brk <= brk <= next area in every valid state |
| Brk.Heap.MoveTo | kernel/vm/brk.c:124-161 | The three branches equal the break step |
| Brk.Heap.DoBrk | kernel/vm/brk.c:56-161 | Succeeds if and only if the address lies between start_brk and the next area, and then equals the break step; otherwise nothing changes |
| BrkRuns.StepKeepsHeap | kernel/vm/brk.c:50-51 | Every operation of any process that leaves the heap's pages, and some area above, alone keeps the heap one area or none |
| BrkRuns.BrkWithMmap | kernel/vm/brk.c:37-51 | In every run mixing brk with such operations the break stays between its start and the next area, and all heap pages are in one private writable area |
| PageCache.Cache.constructor | kernel/mm/pframe.c:122-145 | An empty, consistent cache |
| PageCache.Cache.AddObject | kernel/vm/anon.c:55-74 | A new object has no resident pages |
| PageCache.Cache.GetResident | kernel/mm/pframe.c:189-211 | Finds a page if and only if it is resident, and makes an unpinned one the most recently requested |
| PageCache.Cache.Touch | kernel/mm/pframe.c:189-211 | The frame moves to the end of the allocated list |
| PageCache.Cache.Alloc | kernel/mm/pframe.c:226-256 | All indexes gain exactly the new page, or nothing changes |
| PageCache.Cache.Pin | kernel/mm/pframe.c:406-436 | First pin moves the frame between the lists; all indexes stay consistent |
| PageCache.Cache.Unpin | kernel/mm/pframe.c:448-471 | Last unpin moves it back |
| PageCache.Cache.Free | kernel/mm/pframe.c:552-585 | All indexes lose exactly the page |
| PageCache.Cache.Clean | kernel/mm/pframe.c:512-542 | A file page's content is on disk and its dirty flag clear; if writing fails nothing changes; an anonymous or shadow page is written nowhere |
| PageCache.Cache.Modify | kernel/mm/pframe.c:485-501 | New content marks the page dirty; if the object's operation refuses nothing changes |
| PageCache.Cache.Fill | kernel/mm/pframe.c:263-275 | Anonymous and shadow pages are filled from below and pinned, others from disk; fails exactly if there is nothing to fill from, and then nothing changes |
| PageCache.Cache.Get | kernel/mm/pframe.c:297-351 | The resident frame, junk included, or a new one filled from below or from disk, pinned if anonymous; no memory only if none is free; a failed fill leaves the unfilled frame; no other page changes content, except that junk the daemon freed is back at the disk |
| PageCache.Cache.MakeRoom | kernel/mm/pframe.c:323-330 | What the daemon does meanwhile changes no surviving frame and no page's content but that of frames whose fill failed |
| PageCache.Cache.Pageout | kernel/mm/pframe.c:693-732 | Frees a prefix of the unpinned frames, least recently requested first, until the target or an empty list; exactly its dirty pages are cleaned, once and in order, however often a write fails first; survivors stay; a page freed unwritten is what is on disk, every other page what it was; an anonymous or shadow page goes only if its fill failed |
| PageCache.PinOk | kernel/mm/pframe.c:406-436 | The error branch of pin is unreachable and both lists stay right |
| PageCache.UnpinOk | kernel/mm/pframe.c:448-471 | The error branch of unpin is unreachable and both lists stay right |
| PageCache.PrefixIsOlder | kernel/mm/pframe.c:693-732 | What pageout takes was last requested before anything it leaves |
| PageCache.PagedOutContent | kernel/mm/pframe.c:693-732 | After frames went, the dirty ones written, a page whose frame went unwritten is what is on disk, and every other page what it was, in any state |
| PageCache.PagedOutSame | kernel/mm/pframe.c:693-732 | If clean frames equal the disk and anonymous ones are pinned, apart from frames whose fill failed, no page changes content but theirs |
| PageCache.PagedOutKept | kernel/mm/pframe.c:693-732 | That condition holds afterwards too |
| Sched.NoThreadLostOrDoubled | kernel/proc/sched.c:30-77 | A started live thread is current or exactly once on exactly one queue; sizes are lengths |
| Sched.StepOk | kernel/proc/sched.c:106-322 | Every step keeps queues, thread states and mutexes in order |
| Sched.BootRunOk | kernel/proc/sched.c:106-322 | The invariant holds in every run from boot |
| Sched.WakeAllOk | kernel/proc/sched.c:186-194 | A broadcast appends the whole queue to the run queue in order |
| Sched.CancelSleeperForm | kernel/proc/sched.c:210-224 | A cancelled cancellable sleeper leaves its queue and joins the run queue |
| Sched.CancelOk | kernel/proc/kthread.c:147-165 | Cancelling any thread that is not running keeps the invariant |
| Sched.RunqAfter | kernel/proc/sched.c:265-283 | The run queue loses its head to a dispatch and otherwise only grows at its end |
| Sched.DispatchedInTurn | kernel/proc/sched.c:265-283 | A thread with k ahead is picked by the dispatch after k dispatches, in every run |
| Sched.LockReturnsToHolder | kernel/proc/kmutex.c:47-98 | A lock call that slept returns success only to the holder; the uncancellable one always does |
| Sched.MutexQueueAfter | kernel/proc/kmutex.c:47-136 | Requests join a mutex queue at the end, unlock takes the head, cancel takes its thread, nothing else touches it |
| Sched.WaitStep | kernel/proc/kmutex.c:114-136 | A waiter nobody cancels gets the lock or waits with nobody new ahead |
| Sched.BoundedWaiting | kernel/proc/kmutex.c:114-136 | A waiter with k ahead holds the lock by the time of k+1 unlocks, in every run |
| Sched.NoOvertaking | kernel/proc/kmutex.c:47-136 | In every run, until a waiter nobody cancels gets the mutex, only the holder and those ahead of it hold it |
| Sched.HolderAfter | kernel/proc/kmutex.c:47-136 | Only lock of a free mutex and unlock by the holder change who holds it |
| Sched.FateStep | kernel/proc/kmutex.c:81-98 | Off the queue, a lock call neither gains nor loses the mutex until its thread is dispatched |
| Sched.InterruptedHoldsIff | kernel/proc/kmutex.c:81-98 | A caller told -EINTR holds the mutex if and only if the cancel came after the hand-off |
| Sched.HandOffThenCancel | kernel/proc/kmutex.c:114-136 | Unlock, then cancel of the new holder: it will be told -EINTR and holds the mutex |
| SchedCases.InterruptedHolder | kernel/proc/kmutex.c:81-98 | A run from boot, for any two threads and mutex, after which the holder will be told -EINTR |
| SchedImpl.HeadIsBack | kernel/proc/sched.c:30-37 | Linking in at the head of the list is joining the end of the queue |
| SchedImpl.TailIsFront | kernel/proc/sched.c:45-62 | The tail of the list is the front of the queue |
| SchedImpl.UnlinkedFromQueue | kernel/proc/sched.c:70-77 | Unlinking takes the same thread off the queue |
| SchedImpl.Scheduler.constructor | kernel/proc/sched.c:14-18 | The boot state |
| SchedImpl.Scheduler.Enqueue | kernel/proc/sched.c:30-37 | The thread is last on the queue |
| SchedImpl.Scheduler.Dequeue | kernel/proc/sched.c:45-62 | The first thread leaves the queue, or none |
| SchedImpl.Scheduler.Remove | kernel/proc/sched.c:70-77 | The given thread leaves the queue |
| SchedImpl.Scheduler.MakeRunnable | kernel/proc/sched.c:303-322 | The thread is runnable and last on the run queue |
| SchedImpl.Scheduler.SleepOn | kernel/proc/sched.c:106-114 | The current thread sleeps at the end of the queue |
| SchedImpl.Scheduler.CancellableSleepOn | kernel/proc/sched.c:131-150 | Likewise, unless it was cancelled before: then nothing changes |
| SchedImpl.Scheduler.WakeupOn | kernel/proc/sched.c:160-179 | The first sleeper becomes last on the run queue |
| SchedImpl.Scheduler.BroadcastOn | kernel/proc/sched.c:186-194 | The loop equals waking all in order |
| SchedImpl.Scheduler.CancelSleep | kernel/proc/sched.c:210-224 | The flag is set and a cancellable sleeper is made runnable |
| SchedImpl.Scheduler.Switch | kernel/proc/sched.c:265-283 | While the run queue is empty interrupts wake threads; then the dispatch step, or none if nobody was woken |
| SchedImpl.Scheduler.ThreadExit | kernel/proc/kthread.c:182-200 | The exit step |
| SchedImpl.Scheduler.ThreadCancel | kernel/proc/kthread.c:147-165 | The cancel step, or the exit step for the current thread |
| SchedImpl.Scheduler.Lock | kernel/proc/kmutex.c:47-63 | The lock step |
| SchedImpl.Scheduler.LockCancellable | kernel/proc/kmutex.c:81-98 | The cancellable lock step; -EINTR at once changes nothing |
| SchedImpl.Scheduler.Unlock | kernel/proc/kmutex.c:114-136 | The unlock step; the caller no longer holds the mutex |
| ProcTree.FreePidOk | kernel/proc/proc.c:53-72 | The pid found is in range and free; -1 only if every candidate is taken |
| ProcTree.FreePidFirst | kernel/proc/proc.c:53-72 | It is the first free one after next_pid, cyclically |
| ProcTree.ExhaustedIff | kernel/proc/proc.c:53-72 | -1 if and only if every pid is taken |
| ProcTree.OnlyFirstIsIdle | kernel/proc/proc.c:88-100 | PID_IDLE goes to the first process and to no other |
| ProcTree.CreateOk | kernel/proc/proc.c:88-174 | Creation keeps the table invariant |
| ProcTree.CreateUniqueIff | kernel/proc/proc.c:88-174 | The new pid differs from all others if and only if a pid is free or -1 is not in use |
| ProcCases.PidGivenTwice | kernel/proc/proc.c:88-174 | For every process limit, a run from boot that gives pid -1 to two processes |
| ProcTree.WakeOk | kernel/proc/proc.c:239-242 | Waking the parent keeps the invariant |
| ProcTree.AdoptOk | kernel/proc/proc.c:239-256 | Re-parenting all children to a living init keeps the invariant |
| ProcTree.ExitOk | kernel/proc/proc.c:200-264 | An exit whose children have an heir keeps the invariant |
| ProcTree.ExitOkIff | kernel/proc/proc.c:200-264 | The table survives an exit if and only if there are no children or a living init to take them |
| ProcCases.InitExitsWithChild | kernel/proc/proc.c:239-256 | A run from boot: init exits with a child and the table is broken |
| ProcCases.ExitsAfterInit | kernel/proc/proc.c:239-256 | A run from boot: init is dead, another process exits with a child, and the table is broken |
| ProcTree.ExitSelf | kernel/proc/proc.c:257-259 | The process is dead with the status given, still linked to its parent, its children handed over unless it is init |
| ProcTree.ExitHeir | kernel/proc/proc.c:239-256 | Init has its own children followed by the adopted ones, and is woken exactly if it was the sleeping parent |
| ProcTree.DisposeOk | kernel/proc/proc.c:404-446 | Disposing of a dead child keeps the invariant and the history |
| ProcTree.ScanOk | kernel/proc/proc.c:388-522 | A pass of waitpid, reaping or sleeping, keeps the invariant |
| ProcTree.StepOk | kernel/proc/proc.c:388-522 | Every step keeps the table invariant |
| ProcTree.TreeAfterRun | kernel/proc/proc.c:88-264 | After every run from boot parent pointers and child lists agree, and pids in range are distinct |
| ProcTree.RootedAtIdle | kernel/proc/proc.c:88-264 | Every process descends from the idle process |
| ProcTree.ReapedOnce | kernel/proc/proc.c:388-522 | After every run a process is in the table or was reaped; once, after its exit, with its own status |
| ProcTree.NoLostWakeup | kernel/proc/proc.c:388-522 | After every run nobody but init in waitpid(-1) sleeps with a child it would reap |
| ProcTree.StuckIff | kernel/proc/proc.c:239-256 | An exit leaves init asleep over a dead child if and only if init slept in waitpid(-1), the process was not its child, and it leaves a zombie or init was stuck |
| ProcTree.OnlyExitSticks | kernel/proc/proc.c:88-522 | No other step brings that about |
| ProcCases.InitMissesZombie | kernel/proc/proc.c:239-256 | A run from boot and an exit after which init sleeps over a dead child |
| ProcTree.WaitCollects | kernel/proc/proc.c:388-522 | A successful waitpid hands over pid and exit status of one dead child, the only one with that pid if asked for, and removes it |
| ProcTree.WaitSleepsIff | kernel/proc/proc.c:388-522 | It blocks if and only if no child asked for is dead |
| ProcImpl.ProcTable.constructor | kernel/proc/proc.c:35-43 | The empty table |
| ProcImpl.ProcTable.GetId | kernel/proc/proc.c:53-72 | The nested loops find the specified pid and advance next_pid |
| ProcImpl.ProcTable.IsListed | kernel/proc/proc.c:321-331 | True if and only if some process has the pid |
| ProcImpl.ProcTable.Create | kernel/proc/proc.c:88-174 | The creation step |
| ProcImpl.ProcTable.Cleanup | kernel/proc/proc.c:200-264 | The exit step |
| ProcImpl.ProcTable.MoveChildren | kernel/proc/proc.c:239-256 | The loop hands over all children in order |
| ProcImpl.ProcTable.ScanChildren | kernel/proc/proc.c:388-522 | One pass reaps the first matching dead child, or sleeps |
| ProcImpl.ProcTable.WaitPid | kernel/proc/proc.c:388-522 | The wait step, with -ECHILD exactly for no such child |
| ProcImpl.ProcTable.Resume | kernel/proc/proc.c:388-522 | The pass after a wake-up |
| Namev.Components | kernel/fs/namev.c:77-258 | Components are non-empty and hold no slash |
| Namev.ComponentsSplit | kernel/fs/namev.c:77-258 | A slash separates: components before and after it do not interfere |
| Namev.SlashesDoNotMatter | kernel/fs/namev.c:77-258 | A repeated or trailing slash changes no component |
| Namev.AllSlashes | kernel/fs/namev.c:147-168 | A path has no component if and only if it is all slashes |
| Namev.WalkIsFold | kernel/fs/namev.c:192-226 | The loop over fitting components is the fold of lookup |
| Namev.DirNamevIsFold | kernel/fs/namev.c:77-258 | For a legal path with fitting components: the fold over all but the last, the last as name, one reference on success, none on failure |
| Namev.SpellingDoesNotMatter | kernel/fs/namev.c:77-258 | Paths with the same start and components mean the same |
| Namev.DirNamevRefsIff | kernel/fs/namev.c:77-258 | References come out right if and only if no over-long component that is neither first nor last is reached |
| Namev.LeftBehind | kernel/fs/namev.c:199-202 | Every path of a found, an over-long and a last component leaves the first vnode's reference behind |
| Namev.OpenIsFold | kernel/fs/namev.c:268-318 | Without O_CREAT, open_namev is the fold of lookup over all components, with one reference on what it finds |
| Namev.CreatOnlyIfMissing | kernel/fs/namev.c:268-318 | O_CREAT creates exactly when the directory is found and the name is not |
| NamevImpl.StrnLen | kernel/fs/namev.c:199-199 | The length of the string, capped |
| NamevImpl.CopyOf | kernel/fs/namev.c:124-131 | The buffer holds the path and its end |
| NamevImpl.CutName | kernel/fs/namev.c:193-199 | A name is cut off the rest and measured; what follows stays readable |
| NamevImpl.NameEnd | kernel/fs/namev.c:187-190 | The end of the name that starts there |
| NamevImpl.CutSlashes | kernel/fs/namev.c:193-197 | Slashes become NULs up to the next name; the rest of the buffer stays |
| NamevImpl.TrimSlashes | kernel/fs/namev.c:177-183 | The path ends with its last name |
| NamevImpl.FirstName | kernel/fs/namev.c:147-175 | The first character that is no slash |
| NamevImpl.Vfs.Vref | kernel/fs/vnode.c:104-112 | One reference more |
| NamevImpl.Vfs.Vput | kernel/fs/vnode.c:228-303 | One reference less |
| NamevImpl.Vfs.Lookup | kernel/fs/namev.c:25-56 | -ENOTDIR unless a directory; the result gains a reference |
| NamevImpl.Vfs.Enter | kernel/fs/namev.c:204-216 | lookup in the directory, whose reference is dropped if this call owned it |
| NamevImpl.Vfs.Advance | kernel/fs/namev.c:192-216 | One round of the loop: name cut, looked up, the old directory dropped if owned |
| NamevImpl.Vfs.WalkNames | kernel/fs/namev.c:187-258 | The loop in place equals the walk over components, references included |
| NamevImpl.Vfs.LastName | kernel/fs/namev.c:226-245 | What follows the loop: one reference on the directory, or -ENAMETOOLONG and none |
| NamevImpl.Vfs.DirNamev | kernel/fs/namev.c:77-258 | The scanner equals its specification; the name is the last component where it stands in the path |
| NamevImpl.Vfs.OpenNamev | kernel/fs/namev.c:268-318 | The code equals its specification, references included |
| NamevImpl.Vfs.OpenIn | kernel/fs/namev.c:296-318 | Lookup or create in the directory found, whose reference is dropped |

## Left out

- Constants from header files that are not part of this model (user address range, MAXPATHLEN, NAME_LEN, PROC_MAX_COUNT, hash size) are parameters; PAGE_SIZE is 4096.
- Allocation failures: objects, areas and frames are always available except where PageCache models the free-page count; the partial-failure paths of do_fork, vmmap_map, vmmap_remove and proc_create are not modelled.
- Busy pages and the sleeps inside pframe_get, pframe_clean and shadow_lookuppage: each lookup is one step.
- The reverse list mmo_vmas / vma_olink, and pframe_remove_from_pts, which rests on it.
- Page tables, TLB, contexts, kernel stacks, interrupt levels: an interrupt is an environment step that makes a thread runnable.
- The dirty flag and disk writes in the run model of virtual memory: a file's disk content is constant there, as no store through a mapping sets the flag; PageCache has both.
- 32-bit wrap-around of lopage + npages and of vma_off: page numbers are unbounded outside FindRange and RangePerm.
- vmmap_write, vget's busy protocol, pframe_migrate, mounting, several threads per process, getcwd: not modelled.
- System call dispatch, argument copying of strings and vectors, mmap flag checks, file table, boot: only easy or environment-dependent members.
- The order of an object's resident-page list is not kept in MemImpl (a page of a dying object is any of them); PageCache keeps it.
- Area records are values in a list that is replaced, not linked nodes; reading one link ahead while inserting is modelled by counting the areas still to visit.
- The two machines Sched and ProcTree are separate: in ProcTree the scheduler may pick any process that is not asleep, and p_wait is the process's own waiting state.
- Records are numbered by creation and numbers are not reused, where the code reuses freed memory.
- kthread_clone is covered by thread creation with a given cancelled flag; the moment in which the clone is marked runnable but not yet queued is not.
- List iteration macros are taken to read the next link before the loop body runs.
- Failure of create in open_namev for lack of a create operation is an assertion in the code and not modelled.
- Access.VmmapRead: asks that every page of the range be mapped, since the code uses the result of vmmap_lookup without a check; Access.CopyFromUser shows that its check provides this. Zero bytes at address 0 are excluded, where the last address wraps around.
- Access.CopyFromUser: wrapping ranges, and zero bytes at address 0, are left to Access.RangePerm.
- Brk.Heap.DoBrk: asks that some area lie above the heap, since the code follows the link behind the topmost area without checking for the list head; BrkRuns.LeavesHeap keeps such an area.
- NamevImpl.Vfs.Vput: counts references only; what the last one frees is in MemImpl.MemStore.VnodePut.
- PageCache.Cache.Get: no page is busy, and the sleep for the daemon is a call of it.
- PageCache.Cache.Pageout: only finitely many writes fail; with writes that never work the code stays in its loop.
- PageCache.Cache.Modify: the new content comes with the flag, where the code's callers store it next to the call.
- VmImpl.Vm.AddArea: a file's object always gains a reference. The code adds one only to an object that has none (kernel/vm/vmmap.c:440), so this takes the file's own mmap operation, which is not part of this model, to hand one over.
- SchedImpl.Scheduler.Switch: the interrupts that arrive while the processor idles are a parameter; without one that makes a thread runnable it returns where the code waits on.
- VmSteps.DropIsInvisibleIff: about one memory; VmCases.SharedStoreLostIff says it of runs.
- ProcTree.ExitOkIff: asks that init's record still exist when there are children to re-parent; otherwise the code links to freed memory.
