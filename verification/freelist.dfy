/** The fixed-size cell allocator: blocks carved into cells, free cells threaded through their first word. */
module FreeLists {
  const NULL: int := 0

  ghost predicate NoDup(l: seq<int>) {
    forall i, j :: 0 <= i < j < |l| ==> l[i] != l[j]
  }

  /** The chain of free cells from `first`, linked by the words in `memory`. */
  ghost predicate Chained(first: int, l: seq<int>, memory: map<int, int>)
    decreases l
  {
    if l == [] then first == NULL
    else first == l[0] != NULL && l[0] in memory && Chained(memory[l[0]], l[1..], memory)
  }

  lemma EmptyChain(l: seq<int>, memory: map<int, int>)
    requires Chained(NULL, l, memory)
    ensures l == []
  {
  }

  /** A chain depends only on the words of its own cells. */
  lemma {:induction false} ChainedElsewhere(first: int, l: seq<int>, memory: map<int, int>, c: int, w: int)
    requires Chained(first, l, memory) && c !in l
    ensures Chained(first, l, memory[c := w])
    decreases l
  {
    if l != [] { ChainedElsewhere(memory[l[0]], l[1..], memory, c, w); }
  }

  /** The cells `from`, `from + 1`, up to `end`. */
  ghost function Range(from: int, end: int): (l: seq<int>)
    requires from <= end
    ensures |l| == end - from && forall i | 0 <= i < |l| :: (l[i] == from + i)
    decreases end - from
  {
    if from == end then [] else [from] + Range(from + 1, end)
  }

  lemma RangeMembers(from: int, end: int)
    requires from <= end
    ensures NoDup(Range(from, end)) && forall c: int :: c in Range(from, end) <==> from <= c < end
  {
    forall c: int | from <= c < end ensures c in Range(from, end) {
      assert Range(from, end)[c - from] == c;
    }
  }

  /** Each cell is linked to the next, up to the last one. */
  ghost predicate Threaded(memory: map<int, int>, from: int, end: int) {
    true == (forall c | from <= c < end :: c in memory && memory[c] == if c == end - 1 then NULL else c + 1)
  }

  /** Cells linked each to the next, up to the last one, are a chain. */
  lemma {:induction false} RangeChained(from: int, end: int, memory: map<int, int>)
    requires 0 < from < end && Threaded(memory, from, end)
    ensures Chained(from, Range(from, end), memory)
    decreases end - from
  {
    if from + 1 < end {
      RangeChained(from + 1, end, memory);
      assert Range(from, end)[1..] == Range(from + 1, end);
    } else {
      assert Range(from, end)[1..] == [];
    }
  }

  /** The cells 1 to `total` are split into the free ones, each listed once, and those in use. */
  ghost predicate Partition(chain: seq<int>, inUse: set<int>, total: int, memory: map<int, int>) {
    true == (
      && NoDup(chain)
      && (forall c | c in chain :: 0 < c <= total && c !in inUse)
      && (forall c | c in inUse :: 0 < c <= total)
      && (forall c | 0 < c <= total :: (c in chain || c in inUse) && c in memory))
  }

  /** The words of a new block of `n` cells from `p` on are set up, and every other word is as it was. */
  ghost predicate Carved(memory: map<int, int>, memory': map<int, int>, p: int, n: int) {
    true == (
      && memory.Keys + {p} <= memory'.Keys && Threaded(memory', p + 1, p + n)
      && forall c | c in memory && !(p <= c < p + n) :: memory'[c] == memory[c])
  }

  /** The cells `cells` have their words. */
  ghost predicate Untouched(memory: map<int, int>, memory': map<int, int>, cells: set<int>) {
    true == (forall c | c in cells :: c in memory && c in memory' && memory'[c] == memory[c])
  }

  lemma CarvedElsewhere(chain: seq<int>, inUse: set<int>, total: int, memory: map<int, int>, memory': map<int, int>, n: int)
    requires Partition(chain, inUse, total, memory) && Carved(memory, memory', total + 1, n)
    ensures Untouched(memory, memory', inUse)
  {
  }

  lemma UsedKnown(chain: seq<int>, inUse: set<int>, total: int, memory: map<int, int>)
    requires Partition(chain, inUse, total, memory)
    ensures Untouched(memory, memory, inUse)
  {
  }

  lemma BlockChained(p: int, n: int, memory: map<int, int>, memory': map<int, int>)
    requires Carved(memory, memory', p, n) && n >= 2 && p > 0
    ensures Chained(p + 1, Range(p + 1, p + n), memory')
  {
    hide Chained, Range;
    RangeChained(p + 1, p + n, memory');
  }

  /** A new block of `n` cells: the first goes into use, the others make up the free list. */
  lemma BlockSplit(inUse: set<int>, total: int, n: int, memory: map<int, int>, memory': map<int, int>)
    requires Partition([], inUse, total, memory) && n >= 2 && total >= 0
    requires Carved(memory, memory', total + 1, n)
    ensures Partition(Range(total + 2, total + 1 + n), inUse + {total + 1}, total + n, memory')
    ensures total + 1 !in inUse && |inUse + {total + 1}| == |inUse| + 1
  {
    hide Range;
    RangeMembers(total + 2, total + 1 + n);
    assert total + 1 !in inUse;
  }

  lemma PartitionTakes(chain: seq<int>, inUse: set<int>, total: int, memory: map<int, int>)
    requires Partition(chain, inUse, total, memory) && chain != []
    ensures Partition(chain[1..], inUse + {chain[0]}, total, memory) && chain[0] !in inUse && 0 < chain[0] <= total && chain[0] in memory
  {
    assert forall c :: c in chain <==> c == chain[0] || c in chain[1..];
  }

  lemma PartitionGives(chain: seq<int>, inUse: set<int>, total: int, memory: map<int, int>, p: int, w: int)
    requires Partition(chain, inUse, total, memory) && p in inUse
    ensures Partition([p] + chain, inUse - {p}, total, memory[p := w]) && p !in chain && 0 < p <= total
    ensures Partition(chain, inUse, total, memory[p := w])
  {
  }

  class Allocator {
    const perBlock: int
    var first: int                // the first free cell
    var memory: map<int, int>     // the first word of each cell
    var total: int                // cells carved so far
    var free: int                 // the free counter
    ghost var chain: seq<int>     // the free cells, in order
    ghost var inUse: set<int>
    ghost var collected: int      // cells given back so far

    /** `n` cells fit in a block; a block of one cell could not be threaded. */
    constructor (n: int)
      requires 2 <= n
      ensures Valid() && inUse == {} && total == 0 && chain == [] && perBlock == n && collected == 0
    {
      perBlock := n;
      first, memory, total, free := NULL, map[], 0, 0;
      chain, inUse, collected := [], {}, 0;
    }

    /** Every carved cell is in use or on the free list, never both; the free list holds each cell once; and the
        free counter misses what was given back. */
    ghost predicate Valid()
      reads this
    {
      && perBlock >= 2 && total >= 0
      && Chained(first, chain, memory)
      && Partition(chain, inUse, total, memory)
      && |inUse| + |chain| == total
      && free == |chain| - collected
    }

    /** Link the `n` cells from `p` on, each to the next. */
    method Link(p: int, n: int)
      requires n > 0
      modifies this`memory
      ensures Threaded(memory, p, p + n) && old(memory).Keys <= memory.Keys
      ensures forall c | c in old(memory) && !(p <= c < p + n) :: memory[c] == old(memory)[c]
    {
      var i := 0;
      while i < n - 1
        invariant 0 <= i <= n - 1 && old(memory).Keys <= memory.Keys
        invariant forall c | p <= c < p + i :: c in memory && memory[c] == c + 1
        invariant forall c | c in old(memory) && !(p <= c < p + n) :: memory[c] == old(memory)[c]
      {
        memory := memory[p + i := p + i + 1];
        i := i + 1;
      }
      memory := memory[p + i := NULL];
    }

    method Carve(p: int, n: int)
      requires n >= 2
      modifies this`memory
      ensures Carved(old(memory), memory, p, n)
    {
      memory := memory[p := NULL];
      Link(p + 1, n - 1);
    }

    /** Enter the carved block in the books. */
    method Install(ghost before: map<int, int>)
      requires perBlock >= 2 && total >= 0 && |inUse| == total && free == 0 - collected && Partition([], inUse, total, before)
      requires Carved(before, memory, total + 1, perBlock)
      modifies this`first, this`total, this`free, this`chain, this`inUse
      ensures Valid() && total == old(total) + perBlock && inUse == old(inUse) + {old(total) + 1}
      ensures chain == Range(old(total) + 2, old(total) + 1 + perBlock)
    {
      hide Partition, Chained, Range, Threaded, Carved;
      BlockChained(total + 1, perBlock, before, memory);
      BlockSplit(inUse, total, perBlock, before, memory);
      free := free + (perBlock - 1);
      first, inUse := total + 2, inUse + {total + 1};
      chain := Range(total + 2, total + 1 + perBlock);
      total := total + perBlock;
    }

    /** Carve a new block, with its first cell in use and the others free. */
    method NewBuf() returns (ptr: int)
      requires Valid() && first == NULL
      modifies this`memory, this`first, this`total, this`free, this`chain, this`inUse
      ensures Valid() && ptr == old(total) + 1 && total == old(total) + perBlock && inUse == old(inUse) + {ptr}
      ensures chain == Range(old(total) + 2, old(total) + 1 + perBlock) && Untouched(old(memory), memory, old(inUse))
    {
      hide Partition, Chained, Carved, Range, Untouched;
      EmptyChain(chain, memory);
      ghost var before := memory;
      ptr := total + 1;
      Carve(ptr, perBlock);
      CarvedElsewhere(chain, inUse, total, before, memory, perBlock);
      Install(before);
    }

    /** A cell that is not in use; null if the memory is exhausted. */
    method Allocate(memoryLeft: bool) returns (ptr: int)
      requires Valid()
      modifies this
      ensures Valid() && collected == old(collected) && old(total) <= total
      ensures ptr == NULL <==> old(chain) == [] && !memoryLeft
      ensures ptr == NULL ==> inUse == old(inUse)
      ensures ptr != NULL ==> ptr !in old(inUse) && inUse == old(inUse) + {ptr}
      ensures old(chain) != [] ==> chain == old(chain)[1..] && ptr == old(chain)[0] && total == old(total)
      ensures old(chain) == [] && memoryLeft ==>
                ptr == old(total) + 1 && total == old(total) + perBlock && chain == Range(old(total) + 2, old(total) + 1 + perBlock)
      ensures ptr == NULL ==> chain == old(chain) && total == old(total)
      ensures Untouched(old(memory), memory, old(inUse))
    {
      hide Range, Untouched;
      UsedKnown(chain, inUse, total, memory);
      if first == NULL {
        if memoryLeft {
          NotYet(chain, inUse, total, memory);
          ptr := NewBuf();
          return;
        }
        return NULL;
      }
      ptr := first;
      PartitionTakes(chain, inUse, total, memory);
      first := memory[ptr];
      free := free - 1;
      inUse, chain := inUse + {ptr}, chain[1..];
    }

    /** Give a cell back; nothing for a null pointer. The free counter stays as it is. */
    method Collect(ptr: int)
      requires Valid() && (ptr != NULL ==> ptr in inUse)
      modifies this`memory, this`first, this`chain, this`inUse, this`collected
      ensures Valid()
      ensures ptr == NULL ==> inUse == old(inUse) && chain == old(chain)
      ensures ptr != NULL ==> inUse == old(inUse) - {ptr} && chain == [ptr] + old(chain)
      ensures Untouched(old(memory), memory, old(inUse) - {ptr})
    {
      UsedKnown(chain, inUse, total, memory);
      if ptr == NULL {
        return;
      }
      PartitionGives(chain, inUse, total, memory, ptr, first);
      ChainedElsewhere(first, chain, memory, ptr, first);
      memory := memory[ptr := first];
      first := ptr;
      chain, inUse, collected := [ptr] + chain, inUse - {ptr}, collected + 1;
    }

    /** The owner of a cell writes in it. */
    method WriteCell(c: int, w: int)
      requires Valid() && c in inUse
      modifies this`memory
      ensures Valid() && c in memory && memory[c] == w && Untouched(old(memory), memory, inUse - {c})
    {
      UsedKnown(chain, inUse, total, memory);
      PartitionGives(chain, inUse, total, memory, c, w);
      ChainedElsewhere(first, chain, memory, c, w);
      memory := memory[c := w];
    }

    /** `live` are the cells in use, and have the words that their owners wrote. */
    ghost predicate Keeps(live: seq<int>, words: map<int, int>)
      reads this
    {
      true == (
        && NoDup(live) && (forall c :: c in live <==> c in inUse) && |live| == |inUse|
        && (forall c | c in words :: c in inUse && c in memory && memory[c] == words[c]))
    }

    method PerformTake(memoryLeft: bool, live: seq<int>, ghost words: map<int, int>) returns (live': seq<int>)
      requires Valid() && Keeps(live, words)
      modifies this
      ensures Valid() && Keeps(live', words)
      ensures Book(live', chain, total, words) == After(Book(live, old(chain), old(total), words), Take(memoryLeft), perBlock)
    {
      hide Chained, Partition, Range, Untouched;
      ghost var before, used := memory, inUse;
      var p := Allocate(memoryLeft);
      WordsKept(before, memory, words, used);
      live' := if p != NULL then live + [p] else live;
    }

    method PerformReturn(i: nat, live: seq<int>, ghost words: map<int, int>) returns (live': seq<int>, ghost words': map<int, int>)
      requires Valid() && Keeps(live, words) && i < |live|
      modifies this
      ensures Valid() && Keeps(live', words')
      ensures Book(live', chain, total, words') == After(Book(live, old(chain), old(total), words), Return(i), perBlock)
    {
      hide Chained, Partition, Range, Untouched;
      CutMembers(live, i);
      InUseIsCell(chain, inUse, total, memory, live[i]);
      words' := words - {live[i]};
      ghost var before := memory;
      Collect(live[i]);
      live' := live[..i] + live[i + 1..];
      WordsKept(before, memory, words', inUse);
    }

    method PerformFill(i: nat, w: int, live: seq<int>, ghost words: map<int, int>) returns (ghost words': map<int, int>)
      requires Valid() && Keeps(live, words) && i < |live|
      modifies this`memory
      ensures Valid() && Keeps(live, words')
      ensures Book(live, chain, total, words') == After(Book(live, old(chain), old(total), words), Fill(i, w), perBlock)
    {
      hide Chained, Partition, Range, Untouched;
      ghost var before := memory;
      WriteCell(live[i], w);
      WordsKept(before, memory, words - {live[i]}, inUse - {live[i]});
      words' := words[live[i] := w];
    }

    /** Any run of allocations, returns of live cells, and writes to live cells keeps the books as they should be: no cell is
        handed out while it is in use, what is written in a cell stays there until the cell is given back, and the cells in
        use and on the free list are together all that were carved. */
    method RunAll(ops: seq<Op>) returns (live: seq<int>, ghost words: map<int, int>)
      requires Valid() && inUse == {}
      modifies this
      ensures Valid() && NoDup(live) && (forall c :: c in live <==> c in inUse) && |live| + |chain| == total
      ensures Book(live, chain, total, words) == Serve(Book([], old(chain), old(total), map[]), ops, perBlock)
      ensures forall c | c in words :: c in inUse && c in memory && memory[c] == words[c]
    {
      hide Chained, Partition, After;
      ghost var start := Book([], chain, total, map[]);
      live, words := [], map[];
      var k := 0;
      while k < |ops|
        invariant k <= |ops| && Valid() && Keeps(live, words)
        invariant Serve(Book(live, chain, total, words), ops[k..], perBlock) == Serve(start, ops, perBlock)
      {
        assert ops[k..][1..] == ops[k + 1..];
        if !ops[k].Take? && ops[k].i >= |live| { NothingToDo(Book(live, chain, total, words), ops[k], perBlock); }
        match ops[k] {
          case Take(memoryLeft) => live := PerformTake(memoryLeft, live, words);
          case Return(i) =>
            if i < |live| {
              live, words := PerformReturn(i, live, words);
            }
          case Fill(i, w) =>
            if i < |live| {
              words := PerformFill(i, w, live, words);
            }
        }
        k := k + 1;
      }
    }
  }

  /** An operation on a cell that is not live is none. */
  lemma NothingToDo(b: Book, op: Op, perBlock: int)
    requires perBlock >= 2 && !op.Take? && op.i >= |b.live|
    ensures After(b, op, perBlock) == b
  {
  }

  /** The live cells, oldest first, the free ones, how many were carved, and what the owners last wrote. */
  datatype Book = Book(live: seq<int>, chain: seq<int>, total: int, words: map<int, int>)

  /** What one operation does to the books. */
  ghost function After(b: Book, op: Op, perBlock: int): Book
    requires perBlock >= 2
  {
    match op
    case Take(memoryLeft) =>
      if b.chain != [] then b.(live := b.live + [b.chain[0]], chain := b.chain[1..])
      else if memoryLeft then
        Book(b.live + [b.total + 1], Range(b.total + 2, b.total + 1 + perBlock), b.total + perBlock, b.words)
      else b
    case Return(i) =>
      if i < |b.live| then
        Book(b.live[..i] + b.live[i + 1..], [b.live[i]] + b.chain, b.total, b.words - {b.live[i]})
      else b
    case Fill(i, w) => if i < |b.live| then b.(words := b.words[b.live[i] := w]) else b
  }

  ghost function Serve(b: Book, ops: seq<Op>, perBlock: int): Book
    requires perBlock >= 2
    decreases ops
  {
    if ops == [] then b else Serve(After(b, ops[0], perBlock), ops[1..], perBlock)
  }

  /** A cell that is given back is the next one to be handed out, with whatever word it has. */
  lemma ReturnThenTake(b: Book, i: nat, memoryLeft: bool, perBlock: int)
    requires perBlock >= 2 && i < |b.live|
    ensures After(After(b, Return(i), perBlock), Take(memoryLeft), perBlock)
         == b.(live := b.live[..i] + b.live[i + 1..] + [b.live[i]], words := b.words - {b.live[i]})
  {
  }

  /** What is written in a cell is its word until it is written again or given back; no other operation changes a word. */
  lemma WordStays(b: Book, op: Op, perBlock: int, c: int)
    requires perBlock >= 2 && c in b.words && NoDup(b.live)
    ensures var b' := After(b, op, perBlock);
            if op.Fill? && op.i < |b.live| && b.live[op.i] == c then c in b'.words && b'.words[c] == op.w
            else if op.Return? && op.i < |b.live| && b.live[op.i] == c then c !in b'.words && c !in b'.live
            else c in b'.words && b'.words[c] == b.words[c]
    ensures op.Fill? && op.i < |b.live| ==>
              var b' := After(b, op, perBlock); b.live[op.i] in b'.words && b'.words[b.live[op.i]] == op.w && b'.live == b.live
  {
    if op.Return? && op.i < |b.live| { CutMembers(b.live, op.i); }
  }

  function Takes(k: nat): seq<Op> {
    if k == 0 then [] else [Take(false)] + Takes(k - 1)
  }

  lemma RangeStep(from: int, end: int)
    requires from < end
    ensures Range(from, end) == [from] + Range(from + 1, end)
  {
  }

  /** A new block is handed out cell by cell, in order of address. */
  lemma {:induction false} BlockInOrder(b: Book, k: nat, from: int, end: int, perBlock: int)
    requires perBlock >= 2 && from + k <= end && b.chain == Range(from, end)
    ensures Serve(b, Takes(k), perBlock) == b.(live := b.live + Range(from, from + k), chain := Range(from + k, end))
    decreases k
  {
    hide Range;
    if k > 0 {
      RangeStep(from, end);
      RangeStep(from, from + k);
      var b1 := After(b, Take(false), perBlock);
      assert b1 == b.(live := b.live + [from], chain := Range(from + 1, end));
      assert Takes(k)[1..] == Takes(k - 1);
      BlockInOrder(b1, k - 1, from + 1, end, perBlock);
      assert b.live + [from] + Range(from + 1, from + k) == b.live + ([from] + Range(from + 1, from + k));
    } else {
      assert b.live + [] == b.live;
    }
  }

  lemma WordsKept(memory: map<int, int>, memory': map<int, int>, words: map<int, int>, cells: set<int>)
    requires Untouched(memory, memory', cells) && forall c | c in words :: c in cells
    requires forall c | c in words :: c in memory && memory[c] == words[c]
    ensures forall c | c in words :: c in memory' && memory'[c] == words[c]
  {
  }

  lemma InUseIsCell(chain: seq<int>, inUse: set<int>, total: int, memory: map<int, int>, c: int)
    requires Partition(chain, inUse, total, memory) && c in inUse
    ensures c != NULL
  {
  }

  /** The next cell to be carved is not in use. */
  lemma NotYet(chain: seq<int>, inUse: set<int>, total: int, memory: map<int, int>)
    requires Partition(chain, inUse, total, memory)
    ensures total + 1 !in inUse
  {
  }

  datatype Op = Take(memoryLeft: bool) | Return(i: nat) | Fill(i: nat, w: int)

  lemma CutMembers(l: seq<int>, i: nat)
    requires NoDup(l) && i < |l|
    ensures NoDup(l[..i] + l[i + 1..]) && forall c :: c in l[..i] + l[i + 1..] <==> c in l && c != l[i]
  {
    var r := l[..i] + l[i + 1..];
    forall c | c in l && c != l[i] ensures c in r {
      var j :| 0 <= j < |l| && l[j] == c;
      assert c == r[if j < i then j else j - 1];
    }
  }
}
