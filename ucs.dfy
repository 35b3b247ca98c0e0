/** The parts of the UCS utility layer that the planner registry relies on:
    status codes and the allocator (ucs_malloc, ucs_calloc, ucs_free). */
module Ucs {

  /** ucs_status_t. Only the codes this core produces itself are named;
      every other code a foreign call may report is carried by ErrOther. */
  datatype Status = Ok | ErrNoMemory | ErrInvalidParam | ErrOther(code: int)

  datatype Option<+T> = None | Some(value: T)

  datatype Result<+R, +E> = Success(value: R) | Failure(error: E)

  /** A C pointer into the allocator's heap. */
  datatype Ptr = Null | Addr(id: nat)

  /** The allocation ids a pointer refers to: none for NULL. */
  function Ids(p: Ptr): (s: set<nat>)
    ensures p.Null? <==> s == {}
    ensures p.Addr? ==> p.id in s && |s| == 1
  {
    if p.Null? then {} else {p.id}
  }

  /** A memory-safety violation the heap observed. */
  datatype Fault =
    | InvalidFree(id: nat)   // free of a block that is no longer (or never was) live
    | UseAfterFree(id: nat)  // read or write of a block that is no longer live

  /** A heap block: its contents and whether it is still allocated. A freed
      block keeps its last contents, so that a read after free sees the
      stale data a C program would. */
  datatype Cell<B> = Cell(data: B, live: bool)

  /** The state of the process heap: every block ever allocated, the id
      the next allocation receives, and the log of every invalid free and
      every access to freed memory. */
  datatype Mem<B> = Mem(cells: map<nat, Cell<B>>, next: nat, faults: seq<Fault>)

  /** Every id handed out so far is below `next`. */
  ghost predicate Wf<B>(m: Mem<B>) {
    forall id :: id in m.cells ==> id < m.next
  }

  /** `p` points to a block that is still allocated. */
  predicate IsLive<B>(m: Mem<B>, p: Ptr) {
    p.Addr? && p.id in m.cells && m.cells[p.id].live
  }

  /** The pointer ucs_malloc / ucs_calloc returns; `ok` is the allocator's
      choice to succeed. */
  function NewPtr<B>(m: Mem<B>, ok: bool): Ptr {
    if ok then Addr(m.next) else Null
  }

  /** The heap after that allocation, the new block holding `b`. */
  function Alloc<B>(m: Mem<B>, ok: bool, b: B): Mem<B> {
    if ok then m.(cells := m.cells[m.next := Cell(b, true)], next := m.next + 1) else m
  }

  /** ucs_free: NULL is ignored, a live block is released, anything else
      is an invalid free. */
  function Release<B>(m: Mem<B>, p: Ptr): Mem<B> {
    if p.Null? then m
    else if IsLive(m, p) then m.(cells := m.cells[p.id := m.cells[p.id].(live := false)])
    else m.(faults := m.faults + [InvalidFree(p.id)])
  }

  /** A read or write through `p`: touching a block that is not live is a fault. */
  function Touch<B>(m: Mem<B>, p: Ptr): Mem<B> {
    if p.Addr? && !IsLive(m, p) then m.(faults := m.faults + [UseAfterFree(p.id)]) else m
  }

  /** A write of a whole block through `p`. */
  function Write<B>(m: Mem<B>, p: Ptr, b: B): Mem<B>
    requires p.Addr?
  {
    var t := Touch(m, p);
    t.(cells := t.cells[p.id := Cell(b, IsLive(m, p))])
  }

  /** Blocks that existed before, other than those in `except`, are
      unchanged, liveness included. */
  ghost predicate KeepsCells<B>(m: Mem<B>, r: Mem<B>, except: set<nat>) {
    forall id {:trigger r.cells[id]} {:trigger id in r.cells} :: id in m.cells && id !in except ==> id in r.cells && r.cells[id] == m.cells[id]
  }

  /** A successful allocation hands out an id no block ever had, keeps the
      heap well formed and every existing block unchanged. */
  lemma AllocFresh<B>(m: Mem<B>, b: B)
    requires Wf(m)
    ensures m.next !in m.cells
    ensures Wf(Alloc(m, true, b)) && KeepsCells(m, Alloc(m, true, b), {})
  {
  }

  /** Freeing the same block twice is an invalid free the second time,
      and only then. */
  lemma DoubleRelease<B>(m: Mem<B>, p: Ptr)
    requires IsLive(m, p)
    ensures Release(m, p).faults == m.faults && !IsLive(Release(m, p), p)
    ensures Release(Release(m, p), p).faults == m.faults + [InvalidFree(p.id)]
  {
  }

  /** The process heap, updated in place by the allocator's entry points. */
  class Heap<B> {
    var mem: Mem<B>

    constructor ()
      ensures mem == Mem(map[], 0, [])
    {
      mem := Mem(map[], 0, []);
    }

    method Malloc(ok: bool, b: B) returns (p: Ptr)
      modifies this
      ensures p == NewPtr(old(mem), ok) && mem == Alloc(old(mem), ok, b)
    {
      p := NewPtr(mem, ok);
      mem := Alloc(mem, ok, b);
    }

    method Free(p: Ptr)
      modifies this
      ensures mem == Release(old(mem), p)
    {
      if p.Addr? {
        if p.id in mem.cells && mem.cells[p.id].live {
          mem := mem.(cells := mem.cells[p.id := mem.cells[p.id].(live := false)]);
        } else {
          mem := mem.(faults := mem.faults + [InvalidFree(p.id)]);
        }
      }
    }

    /** A read through `p` of data the caller already knows. */
    method Access(p: Ptr)
      modifies this
      ensures mem == Touch(old(mem), p)
    {
      if p.Addr? && !(p.id in mem.cells && mem.cells[p.id].live) {
        mem := mem.(faults := mem.faults + [UseAfterFree(p.id)]);
      }
    }

    /** A write of a whole block through `p`. */
    method Store(p: Ptr, b: B)
      requires p.Addr?
      modifies this
      ensures mem == Write(old(mem), p, b)
    {
      var live := p.id in mem.cells && mem.cells[p.id].live;
      if !live {
        mem := mem.(faults := mem.faults + [UseAfterFree(p.id)]);
      }
      mem := mem.(cells := mem.cells[p.id := Cell(b, live)]);
    }
  }
}
