/**
 * The interpreter's address space: a stack, a segment of constants and a heap,
 * all of which only grow at their end.
 */
module AddressSpace {

  import opened Options
  import opened Numbers
  import opened TypedMemory

  const MAX_STACK: nat := 1024 * 1024 * 64 - 16
  const GLOBALS_OFFSET: nat := MAX_STACK + 16
  const MAX_GLOBALS: nat := 1024 * 1024 * 64
  const HEAP_OFFSET: nat := GLOBALS_OFFSET + MAX_GLOBALS + 16
  const MAX_HEAP: nat := 1024 * 1024 * 64 - 16
  const HEADER: nat := 8

  datatype Segment = Stack | Globals | Heap

  /** Memory handed out; memory from "malloc" has its size in front. */
  datatype Block = Block(seg: Segment, start: nat, size: nat, sized: bool)
  {
    function Address(): nat {
      Base(seg) + start
    }

    /** Where the memory begins that no one else may use. */
    function From(): int {
      if sized then start - HEADER else start
    }
  }

  function Base(seg: Segment): nat {
    match seg
    case Stack => 0
    case Globals => GLOBALS_OFFSET
    case Heap => HEAP_OFFSET
  }

  datatype Place = Place(seg: Segment, offset: nat)

  /** The segment an address belongs to. */
  function Resolve(address: nat): Place {
    if address >= HEAP_OFFSET then Place(Heap, address - HEAP_OFFSET)
    else if address >= GLOBALS_OFFSET then Place(Globals, address - GLOBALS_OFFSET)
    else Place(Stack, address)
  }

  datatype Memory = Memory(stack: seq<Byte>, globals: seq<Byte>, heap: seq<Byte>, constants: map<nat, nat>, live: set<Block>)
  {
    function Bytes(seg: Segment): seq<Byte> {
      match seg
      case Stack => stack
      case Globals => globals
      case Heap => heap
    }

    predicate Holds(b: Block) {
      b.From() >= 0 && b.start + b.size <= |Bytes(b.seg)|
    }

    function Contents(b: Block): seq<Byte>
      requires Holds(b)
    {
      Bytes(b.seg)[b.start..b.start + b.size]
    }

    /** The size that was written in front of a block. */
    function Noted(b: Block): nat
      requires Holds(b) && b.sized
    {
      FromBytes(Bytes(b.seg)[b.start - HEADER..b.start])
    }

    predicate Limits() {
      |stack| < MAX_STACK && |globals| < MAX_GLOBALS && |heap| < MAX_HEAP
    }

    ghost predicate Valid() {
      && Limits()
      && (forall b :: b in live ==> Holds(b) && (b.sized ==> b.seg == Heap && Noted(b) == b.size))
      && (forall b, c :: b in live && c in live && b != c ==> Apart(b, c))
    }
  }

  predicate Apart(b: Block, c: Block) {
    b.seg != c.seg || b.start + b.size <= c.From() || c.start + c.size <= b.From()
  }

  function Zeros(n: nat): (bs: seq<Byte>)
    ensures |bs| == n
  {
    seq(n, i => 0)
  }

  // ----- addresses -----

  /** Every address inside a block belongs to the block's own segment, at the right place. */
  lemma AddressesResolve(s: Memory, b: Block, k: nat)
    requires s.Valid() && b in s.live && k <= b.size
    ensures Resolve(b.Address() + k) == Place(b.seg, b.start + k)
  {
    assert s.Holds(b);
  }

  /** Different blocks have no address in common. */
  lemma AddressesDiffer(s: Memory, b: Block, c: Block, i: nat, j: nat)
    requires s.Valid() && b in s.live && c in s.live && b != c && i < b.size && j < c.size
    ensures b.Address() + i != c.Address() + j
  {
    AddressesResolve(s, b, i);
    AddressesResolve(s, c, j);
    assert Apart(b, c);
  }

  // ----- growing -----

  /** Segments may only have grown. */
  ghost predicate Grown(s: Memory, s': Memory) {
    s.stack <= s'.stack && s.globals <= s'.globals && s.heap <= s'.heap
  }

  lemma GrownKeeps(s: Memory, s': Memory, b: Block)
    requires Grown(s, s') && s.Holds(b)
    ensures s'.Holds(b) && s'.Contents(b) == s.Contents(b) && (b.sized ==> s'.Noted(b) == s.Noted(b))
  {
    var m, m' := s.Bytes(b.seg), s'.Bytes(b.seg);
    assert m <= m';
    assert m'[b.start..b.start + b.size] == m[b.start..b.start + b.size];
    if b.sized { assert m'[b.start - HEADER..b.start] == m[b.start - HEADER..b.start]; }
  }

  /** A new block behind everything that was there. */
  lemma NewBlock(s: Memory, s': Memory, b: Block)
    requires s.Valid() && Grown(s, s') && s'.Limits() && s'.live == s.live + {b}
    requires b.From() >= |s.Bytes(b.seg)| && s'.Holds(b) && (b.sized ==> b.seg == Heap && s'.Noted(b) == b.size)
    ensures s'.Valid()
    ensures forall c :: c in s.live ==> s'.Holds(c) && s.Holds(c) && s'.Contents(c) == s.Contents(c)
    ensures forall c :: c in s.live && c != b ==> Apart(b, c)
  {
    forall c | c in s.live
      ensures s'.Holds(c) && s'.Contents(c) == s.Contents(c) && (c.sized ==> s'.Noted(c) == s.Noted(c)) && Apart(b, c)
    {
      GrownKeeps(s, s', c);
    }
  }

  // ----- allocation -----

  datatype Outcome = Outcome(memory: Memory, block: Option<Block>)

  function AfterAlloca(s: Memory, size: nat, coroutine: bool): Outcome {
    if coroutine then
      if |s.heap| + size >= MAX_HEAP then Outcome(s, None)
      else
        var b := Block(Heap, |s.heap|, size, false);
        Outcome(s.(heap := s.heap + Zeros(size), live := s.live + {b}), Some(b))
    else
      if |s.stack| + size >= MAX_STACK then Outcome(s, None)
      else
        var b := Block(Stack, |s.stack|, size, false);
        Outcome(s.(stack := s.stack + Zeros(size), live := s.live + {b}), Some(b))
  }

  function AfterMalloc(s: Memory, size: nat): Outcome {
    if |s.heap| + size + HEADER >= MAX_HEAP then Outcome(s, None)
    else
      var b := Block(Heap, |s.heap| + HEADER, size, true);
      Outcome(s.(heap := s.heap + ToBytes(size, HEADER) + Zeros(size), live := s.live + {b}), Some(b))
  }

  /** The old block stays if it is large enough; otherwise its contents move to a new one. */
  function AfterRealloc(s: Memory, b: Block, size: nat): Outcome
    requires b.sized && s.Holds(b) && s.Noted(b) == b.size
  {
    if size <= b.size then Outcome(s, Some(b))
    else if |s.heap| + size + HEADER >= MAX_HEAP then Outcome(s, None)
    else
      var c := Block(Heap, |s.heap| + HEADER, size, true);
      var data := s.Contents(b) + Zeros(size - b.size);
      Outcome(s.(heap := s.heap + ToBytes(size, HEADER) + data, live := s.live - {b} + {c}), Some(c))
  }

  /** A constant is put into memory the first time it is needed. */
  function AfterConstant(s: Memory, key: nat, data: seq<Byte>): Memory {
    if key in s.constants || |s.globals| + |data| >= MAX_GLOBALS then s
    else
      var b := Block(Globals, |s.globals|, |data|, false);
      s.(globals := s.globals + data, constants := s.constants[key := b.Address()], live := s.live + {b})
  }

  /** A function returns, and its stack memory is gone. */
  function AfterReturn(s: Memory, size: nat): Memory
    requires size <= |s.stack|
  {
    s.(stack := s.stack[..size], live := set b | b in s.live && (b.seg.Stack? ==> b.start + b.size <= size))
  }

  /** Bytes are written inside a block. */
  function AfterWrite(s: Memory, b: Block, at: nat, data: seq<Byte>): Memory
    requires s.Holds(b) && at + |data| <= b.size
  {
    match b.seg
    case Stack => s.(stack := Put(s.stack, b.start + at, data))
    case Globals => s.(globals := Put(s.globals, b.start + at, data))
    case Heap => s.(heap := Put(s.heap, b.start + at, data))
  }

  lemma HeaderRoundTrip(size: nat)
    requires size < MAX_HEAP
    ensures FromBytes(ToBytes(size, HEADER)) == size
  {
    hide Pow2, ToBytes, FromBytes;
    Pow2At32();
    Pow2Grows(32, 8 * HEADER);
    BytesRoundTrip(size, HEADER);
  }

  lemma Pow2At32()
    ensures Pow2(32) >= MAX_HEAP
  {
    Pow2Bytes(24);
    Pow2Bytes(16);
    Pow2Bytes(8);
    Pow2Bytes(0);
  }

  lemma AllocaKeeps(s: Memory, size: nat, coroutine: bool)
    requires s.Valid()
    ensures var r := AfterAlloca(s, size, coroutine);
            && r.memory.Valid()
            && (forall c :: c in s.live ==> r.memory.Holds(c) && s.Holds(c) && r.memory.Contents(c) == s.Contents(c))
            && (r.block.Some? ==> r.block.value in r.memory.live && r.block.value.size == size)
            && (r.block.Some? ==> r.memory.Contents(r.block.value) == Zeros(size))
            && (r.block.Some? ==> r.block.value.seg == if coroutine then Heap else Stack)
            && (r.block.Some? ==> forall c :: c in s.live && c != r.block.value ==> Apart(r.block.value, c))
            && (r.block.None? <==> if coroutine then |s.heap| + size >= MAX_HEAP else |s.stack| + size >= MAX_STACK)
  {
    var r := AfterAlloca(s, size, coroutine);
    if r.block.Some? { NewBlock(s, r.memory, r.block.value); }
  }

  lemma MallocKeeps(s: Memory, size: nat)
    requires s.Valid()
    ensures var r := AfterMalloc(s, size);
            && r.memory.Valid()
            && (forall c :: c in s.live ==> r.memory.Holds(c) && s.Holds(c) && r.memory.Contents(c) == s.Contents(c))
            && (r.block.Some? ==> r.block.value in r.memory.live && r.block.value.size == size && r.block.value.sized)
            && (r.block.Some? ==> r.block.value.seg == Heap && r.memory.Contents(r.block.value) == Zeros(size))
            && (r.block.Some? ==> forall c :: c in s.live && c != r.block.value ==> Apart(r.block.value, c))
            && (r.block.None? <==> |s.heap| + size + HEADER >= MAX_HEAP)
  {
    var r := AfterMalloc(s, size);
    if r.block.Some? {
      var b, h := r.block.value, r.memory.heap;
      assert h[b.start - HEADER..b.start] == ToBytes(size, HEADER);
      HeaderRoundTrip(size);
      NewBlock(s, r.memory, b);
    }
  }

  /** All bytes of the old block are in the result, and no other block is touched. */
  lemma ReallocKeeps(s: Memory, b: Block, size: nat)
    requires s.Valid() && b in s.live && b.sized
    ensures var r := AfterRealloc(s, b, size);
            && r.memory.Valid()
            && (forall c :: c in s.live ==> r.memory.Holds(c) && s.Holds(c) && r.memory.Contents(c) == s.Contents(c))
            && (r.block.Some? ==>
                var c := r.block.value;
                && c in r.memory.live && c.sized && c.size >= size && c.size >= b.size
                && r.memory.Contents(c)[..b.size] == s.Contents(b)
                && (if size <= b.size then c == b && r.memory == s
                    else c.size == size && r.memory.live == s.live - {b} + {c} && c !in s.live)
                && forall d :: d in s.live && d != b && d != c ==> Apart(c, d))
            && (r.block.None? <==> size > b.size && |s.heap| + size + HEADER >= MAX_HEAP)
  {
    var r := AfterRealloc(s, b, size);
    if r.block.Some? && size > b.size {
      var c, t := r.block.value, r.memory.(live := s.live + {r.block.value});
      MovedBlock(s, b, size);
      hide Memory.Valid, Memory.Holds, Memory.Contents, Memory.Noted, Grown, Apart;
      NewBlock(s, t, c);
      assert r.memory == t.(live := t.live - (s.live - r.memory.live));
      FewerBlocks(t, r.memory);
    }
  }

  /** The new block begins with the bytes of the old one. */
  lemma MovedBlock(s: Memory, b: Block, size: nat)
    requires s.Valid() && b in s.live && b.sized && size > b.size && |s.heap| + size + HEADER < MAX_HEAP
    ensures s.Holds(b) && s.Noted(b) == b.size
    ensures var c, r := Block(Heap, |s.heap| + HEADER, size, true), AfterRealloc(s, b, size).memory;
            && Grown(s, r) && r.Limits() && r.Holds(c) && r.Noted(c) == size && r.Contents(c)[..b.size] == s.Contents(b)
  {
    assert s.Holds(b);
    var c, h := Block(Heap, |s.heap| + HEADER, size, true), AfterRealloc(s, b, size).memory.heap;
    var data := s.Contents(b) + Zeros(size - b.size);
    Behind(s.heap, ToBytes(size, HEADER), data);
    HeaderRoundTrip(size);
    assert data[..b.size] == s.Contents(b);
  }

  lemma Behind(m: seq<Byte>, header: seq<Byte>, data: seq<Byte>)
    ensures var r, n := m + header + data, |m| + |header|;
            m <= r && r[|m|..n] == header && r[n..n + |data|] == data
  {
  }

  lemma FewerBlocks(s: Memory, s': Memory)
    requires s.Valid() && s' == s.(live := s'.live) && s'.live <= s.live
    ensures s'.Valid() && forall c :: c in s.live ==> s'.Holds(c) && s.Holds(c) && s'.Contents(c) == s.Contents(c)
  {
    assert forall c :: c in s.live ==> s'.Holds(c) && (c.sized ==> s'.Noted(c) == s.Noted(c));
  }

  lemma ConstantKeeps(s: Memory, key: nat, data: seq<Byte>)
    requires s.Valid()
    ensures var s' := AfterConstant(s, key, data);
            && s'.Valid()
            && (forall c :: c in s.live ==> s'.Holds(c) && s.Holds(c) && s'.Contents(c) == s.Contents(c))
            && (key !in s.constants && |s.globals| + |data| < MAX_GLOBALS ==>
                var b := Block(Globals, |s.globals|, |data|, false);
                b in s'.live && s'.constants[key] == b.Address() && s'.Contents(b) == data)
            && (forall k :: k in s.constants ==> k in s'.constants && s'.constants[k] == s.constants[k])
            && (key in s.constants || |s.globals| + |data| >= MAX_GLOBALS ==> s' == s)
  {
    var s' := AfterConstant(s, key, data);
    if key !in s.constants && |s.globals| + |data| < MAX_GLOBALS {
      var b := Block(Globals, |s.globals|, |data|, false);
      assert s'.globals[b.start..b.start + b.size] == data;
      NewBlock(s, s', b);
    }
  }

  /** What is left of the stack is unchanged, and so is everything else. */
  lemma ReturnKeeps(s: Memory, size: nat)
    requires s.Valid() && size <= |s.stack|
    ensures var s' := AfterReturn(s, size);
            && s'.Valid() && s'.live <= s.live
            && (forall c :: c in s'.live <==> c in s.live && (c.seg.Stack? ==> c.start + c.size <= size))
            && |s'.stack| == size && s'.stack <= s.stack && s' == s.(stack := s'.stack, live := s'.live)
            && (forall c :: c in s'.live ==> s.Holds(c) && s'.Holds(c) && s'.Contents(c) == s.Contents(c))
  {
    var s' := AfterReturn(s, size);
    forall c | c in s'.live ensures s.Holds(c) && s'.Holds(c) && s'.Contents(c) == s.Contents(c) {
      assert s.Holds(c);
      if c.seg.Stack? { assert s'.stack[c.start..c.start + c.size] == s.stack[c.start..c.start + c.size]; }
    }
    forall c | c in s'.live && c.sized ensures s'.Noted(c) == s.Noted(c) { assert c.seg == Heap; }
  }

  /** A write inside a block changes that block only. */
  lemma WriteKeeps(s: Memory, b: Block, at: nat, data: seq<Byte>)
    requires s.Valid() && b in s.live && at + |data| <= b.size
    ensures var s' := AfterWrite(s, b, at, data);
            && s'.Valid() && s'.live == s.live
            && s'.Holds(b) && s'.Contents(b) == Put(s.Contents(b), at, data)
            && (forall c :: c in s.live && c != b ==> s'.Holds(c) && s.Holds(c) && s'.Contents(c) == s.Contents(c))
  {
    hide Memory.Valid, Memory.Holds, Memory.Contents, Memory.Noted, AfterWrite, Put;
    WriteHere(s, b, at, data);
    var s' := AfterWrite(s, b, at, data);
    forall c | c in s.live ensures s'.Holds(c) && s.Holds(c) && (c.sized ==> s'.Noted(c) == s.Noted(c))
      ensures c != b ==> s'.Contents(c) == s.Contents(c)
    {
      WriteElsewhere(s, b, at, data, c);
    }
    StillValid(s, s');
  }

  /** The same blocks with the same sizes in front of them. */
  lemma StillValid(s: Memory, s': Memory)
    requires s.Valid() && s'.Limits() && s'.live == s.live
    requires forall c :: c in s.live ==> s'.Holds(c) && s.Holds(c) && (c.sized ==> s'.Noted(c) == s.Noted(c))
    ensures s'.Valid()
  {
    hide Memory.Holds, Memory.Noted, Apart;
  }

  lemma WriteHere(s: Memory, b: Block, at: nat, data: seq<Byte>)
    requires s.Valid() && b in s.live && at + |data| <= b.size
    ensures s.Holds(b)
    ensures var s' := AfterWrite(s, b, at, data);
            && s'.Limits() && s'.live == s.live && s'.Holds(b) && s'.Contents(b) == Put(s.Contents(b), at, data)
  {
    assert s.Holds(b);
    var s' := AfterWrite(s, b, at, data);
    PutInside(s.Bytes(b.seg), b.start, b.size, at, data);
    assert s'.Bytes(b.seg) == Put(s.Bytes(b.seg), b.start + at, data);
  }

  /** A part of what bytes were put into, seen by itself. */
  lemma PutInside(m: seq<Byte>, start: nat, size: nat, at: nat, data: seq<Byte>)
    requires start + size <= |m| && at + |data| <= size
    ensures |Put(m, start + at, data)| == |m|
    ensures Put(m, start + at, data)[start..start + size] == Put(m[start..start + size], at, data)
  {
  }

  lemma WriteElsewhere(s: Memory, b: Block, at: nat, data: seq<Byte>, c: Block)
    requires s.Valid() && b in s.live && c in s.live && at + |data| <= b.size
    ensures var s' := AfterWrite(s, b, at, data);
            && s'.Holds(c) && s.Holds(c) && (c.sized ==> s'.Noted(c) == s.Noted(c))
            && (c != b ==> s'.Contents(c) == s.Contents(c))
  {
    assert s.Holds(b) && s.Holds(c) && (b != c ==> Apart(b, c));
    hide Memory.Valid, Put;
    var m, at' := s.Bytes(c.seg), b.start + at;
    if b.seg == c.seg {
      if c.sized { PutOutside(m, at', data, c.start - HEADER, c.start); }
      if b != c { PutOutside(m, at', data, c.start, c.start + c.size); }
    }
  }

  lemma PutOutside(m: seq<Byte>, at: nat, data: seq<Byte>, from: nat, to: nat)
    requires at + |data| <= |m| && from <= to <= |m| && (to <= at || at + |data| <= from)
    ensures Put(m, at, data)[from..to] == m[from..to]
  {
  }

  // ----- every reachable state -----

  /** A step of a program that uses only memory it was given. */
  datatype Action =
    | Alloca(size: nat, coroutine: bool)
    | Malloc(size: nat)
    | Realloc(block: Block, newSize: nat)
    | Free(block: Block)
    | Constant(key: nat, data: seq<Byte>)
    | Return(stackSize: nat)
    | Write(block: Block, at: nat, data: seq<Byte>)

  predicate Allowed(s: Memory, a: Action) {
    match a
    case Realloc(b, _) => b in s.live && b.sized && s.Holds(b) && s.Noted(b) == b.size
    case Free(b) => b in s.live
    case Return(n) => n <= |s.stack|
    case Write(b, at, data) => b in s.live && s.Holds(b) && at + |data| <= b.size
    case _ => true
  }

  function Next(s: Memory, a: Action): Memory
    requires Allowed(s, a)
  {
    match a
    case Alloca(size, coroutine) => AfterAlloca(s, size, coroutine).memory
    case Malloc(size) => AfterMalloc(s, size).memory
    case Realloc(b, size) => AfterRealloc(s, b, size).memory
    case Free(b) => s.(live := s.live - {b})
    case Constant(key, data) => AfterConstant(s, key, data)
    case Return(n) => AfterReturn(s, n)
    case Write(b, at, data) => AfterWrite(s, b, at, data)
  }

  ghost predicate Reachable(s: Memory, n: nat)
    decreases n
  {
    if n == 0 then s == Start() else exists s0, a :: Reachable(s0, n - 1) && Allowed(s0, a) && s == Next(s0, a)
  }

  /** The first bytes of the stack are reserved for the null pointer. */
  function Start(): Memory {
    Memory(Zeros(16), [], [], map[], {})
  }

  lemma NextKeeps(s: Memory, a: Action)
    requires s.Valid() && Allowed(s, a)
    ensures Next(s, a).Valid()
  {
    hide Memory.Valid;
    match a
    case Alloca(size, coroutine) => AllocaKeeps(s, size, coroutine);
    case Malloc(size) => MallocKeeps(s, size);
    case Realloc(b, size) => ReallocKeeps(s, b, size);
    case Free(b) => FreeKeeps(s, b);
    case Constant(key, data) => ConstantKeeps(s, key, data);
    case Return(n) => ReturnKeeps(s, n);
    case Write(b, at, data) => WriteKeeps(s, b, at, data);
  }

  lemma FreeKeeps(s: Memory, b: Block)
    requires s.Valid()
    ensures s.(live := s.live - {b}).Valid()
  {
    FewerBlocks(s, s.(live := s.live - {b}));
  }

  lemma {:induction false} ReachableValid(s: Memory, n: nat)
    requires Reachable(s, n)
    ensures s.Valid()
    decreases n
  {
    if n > 0 {
      var s0, a :| Reachable(s0, n - 1) && Allowed(s0, a) && s == Next(s0, a);
      ReachableValid(s0, n - 1);
      NextKeeps(s0, a);
    }
  }

  /** In every reachable state addresses of blocks lead to their own memory, and no two blocks share any. */
  lemma BlocksAreSeparate(s: Memory, n: nat, b: Block, i: nat, c: Block, j: nat)
    requires Reachable(s, n) && b in s.live && c in s.live && i < b.size && j < c.size
    ensures Resolve(b.Address() + i) == Place(b.seg, b.start + i) && b.start + i < |s.Bytes(b.seg)|
    ensures b.Address() + i == c.Address() + j ==> b == c && i == j
  {
    ReachableValid(s, n);
    AddressesResolve(s, b, i);
    assert s.Holds(b);
    if b != c { AddressesDiffer(s, b, c, i, j); }
  }

  // ----- the interpreter's own memory -----

  class Space {

    var stack: seq<Byte>
    var globals: seq<Byte>
    var heap: seq<Byte>
    var constants: map<nat, nat>
    var errors: bool
    ghost var live: set<Block>

    ghost function View(): Memory
      reads this
    {
      Memory(stack, globals, heap, constants, live)
    }

    constructor ()
      ensures View() == Start() && !errors
    {
      stack, globals, heap, constants, errors, live := Zeros(16), [], [], map[], false, {};
    }

    /** Memory for a local variable; that of a coroutine must outlive its suspensions. */
    method ProcessAlloca(size: nat, isCoroutine: bool) returns (address: nat)
      requires View().Valid()
      modifies this
      ensures View() == AfterAlloca(old(View()), size, isCoroutine).memory && View().Valid()
      ensures var b := AfterAlloca(old(View()), size, isCoroutine).block;
              (b.Some? ==> address == b.value.Address() && errors == old(errors)) && (b.None? ==> errors)
    {
      AllocaKeeps(View(), size, isCoroutine);
      address := 0;
      if isCoroutine {
        address := |heap| + HEAP_OFFSET;
        var newSize := |heap| + size;
        if newSize >= MAX_HEAP {
          errors := true;
          return;
        }
        live := live + {Block(Heap, |heap|, size, false)};
        heap := heap + Zeros(size);
      } else {
        address := |stack|;
        var newSize := |stack| + size;
        if newSize >= MAX_STACK {
          errors := true;
          return;
        }
        live := live + {Block(Stack, |stack|, size, false)};
        stack := stack + Zeros(size);
      }
    }

    method ProcessMalloc(size: nat) returns (address: nat)
      requires View().Valid()
      modifies this
      ensures View() == AfterMalloc(old(View()), size).memory && View().Valid()
      ensures var b := AfterMalloc(old(View()), size).block;
              (b.Some? ==> address == b.value.Address() && errors == old(errors)) && (b.None? ==> errors)
    {
      MallocKeeps(View(), size);
      var offset := |heap|;
      var newSize := offset + size + HEADER;
      address := 0;
      if newSize >= MAX_HEAP {
        errors := true;
        return;
      }
      heap := heap + (ToBytes(size, HEADER) + Zeros(size));
      assert heap == old(heap) + ToBytes(size, HEADER) + Zeros(size);
      live := live + {Block(Heap, offset + HEADER, size, true)};
      address := offset + HEADER + HEAP_OFFSET;
    }

    /** Reads the old size in front of the block; a larger block is a new one with the old contents. */
    method ProcessRealloc(oldAddress: nat, size: nat, ghost b: Block) returns (address: nat)
      requires View().Valid() && b in live && b.sized && oldAddress == b.Address()
      modifies this
      ensures old(View().Holds(b) && View().Noted(b) == b.size)
      ensures View() == AfterRealloc(old(View()), b, size).memory && View().Valid()
      ensures var c := AfterRealloc(old(View()), b, size).block;
              (c.Some? ==> address == c.value.Address() && errors == old(errors)) && (c.None? ==> errors)
    {
      ReallocKeeps(View(), b, size);
      assert View().Holds(b) && View().Noted(b) == b.size;
      var previous := oldAddress - HEAP_OFFSET;
      var previousSize := FromBytes(heap[previous - HEADER..previous]);
      assert previousSize == b.size;
      address := 0;
      if size <= previousSize {
        address := oldAddress;
        return;
      }
      var offset := |heap|;
      var newSize := offset + size + HEADER;
      if newSize >= MAX_HEAP {
        errors := true;
        return;
      }
      heap := heap + ToBytes(size, HEADER) + (heap[previous..previous + previousSize] + Zeros(size - previousSize));
      live := live - {b} + {Block(Heap, offset + HEADER, size, true)};
      address := offset + HEADER + HEAP_OFFSET;
    }

    /** The address of a constant, which is copied to memory when it is first asked for. */
    method MoveConstantToStack(key: nat, data: seq<Byte>) returns (address: nat)
      requires View().Valid()
      modifies this
      ensures View() == AfterConstant(old(View()), key, data) && View().Valid()
      ensures key in constants ==> address == constants[key] && errors == old(errors)
      ensures key !in constants ==> address == 0 && errors
    {
      ConstantKeeps(View(), key, data);
      if key in constants { return constants[key]; }
      var offset := |globals|;
      var newSize := |globals| + |data|;
      if newSize >= MAX_GLOBALS {
        errors := true;
        return 0;
      }
      globals := globals + data;
      constants := constants[key := offset + GLOBALS_OFFSET];
      live := live + {Block(Globals, offset, |data|, false)};
      address := offset + GLOBALS_OFFSET;
    }
  }
}
