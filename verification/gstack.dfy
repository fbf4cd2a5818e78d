/** The generic stack: a byte buffer that grows by a test of token counts against byte offsets. */
module GenericStacks {
  import opened Options
  import opened Words
  import opened TextSegs

  const HALF: nat := 0x8000_0000_0000_0000

  /** No stack gets near the size of the address space. */
  const CAPACITY: nat := 0x1_0000_0000

  /** Token `i` of size `t` in the bytes `b`. */
  ghost function At(b: seq<byte>, i: nat, t: nat): seq<byte> {
    if i * t <= (i + 1) * t <= |b| then b[i * t..(i + 1) * t] else []
  }

  lemma Times(a: int, b: int, t: nat)
    requires a <= b
    ensures a * t <= b * t
  {
  }

  lemma Spread(a: int, b: int, t: nat)
    ensures (a + b) * t == a * t + b * t
  {
  }

  /** Below `n` tokens, buffers that agree hold the same tokens. */
  lemma SameTokens(a: seq<byte>, b: seq<byte>, n: nat, t: nat)
    requires n * t <= |a| && n * t <= |b| && forall k | 0 <= k < n * t :: a[k] == b[k]
    ensures forall i | 0 <= i < n :: At(a, i, t) == At(b, i, t)
  {
    forall i | 0 <= i < n ensures At(a, i, t) == At(b, i, t) {
      Times(i + 1, n, t);
      Times(i, i + 1, t);
    }
  }

  /** Tokens in a cleared stretch are zero. */
  lemma ClearTokens(b: seq<byte>, from: nat, to: nat, t: nat)
    requires to * t <= |b| && from <= to && forall k | from * t <= k < to * t :: b[k] == 0
    ensures forall i | from <= i < to :: At(b, i, t) == Zero(t)
  {
    forall i | from <= i < to ensures At(b, i, t) == Zero(t) {
      Times(from, i, t);
      Times(i + 1, to, t);
      Spread(i, 1, t);
    }
  }

  ghost function Zero(t: nat): seq<byte> {
    seq(t, _ => 0)
  }

  class GenericStack {
    const tokenSize: nat
    var sz: nat          // allocated tokens
    var sp: nat          // index of the last token, as a word
    var tokSp: nat       // its offset in bytes, as a word
    var stack: array<byte>
    ghost var count: nat // number of tokens

    ghost predicate Valid()
      reads this
    {
      && 1 <= tokenSize < 1024 && sz < CAPACITY
      && stack.Length == sz * tokenSize && count <= sz
      && sp == Wrap(count - 1) && tokSp == Wrap((count - 1) * tokenSize)
    }

    ghost function Tokens(): (ts: seq<seq<byte>>)
      reads this, stack
      ensures |ts| == count
    {
      var b, n := stack[..], count;
      seq(n, i requires 0 <= i < n => At(b, i, tokenSize))
    }

    constructor (size: nat)
      requires 1 <= size < 1024
      ensures Valid() && tokenSize == size && Tokens() == [] && fresh(stack)
    {
      tokenSize := size;
      sz, count := 0, 0;
      stack := new byte[0];
      sp, tokSp := WORD - 1, Wrap(0 - size);
    }

    /** Move the buffer to one of `n` tokens; what is new in it is arbitrary. */
    method Realloc(n: nat)
      requires 1 <= tokenSize < 1024 && stack.Length == sz * tokenSize && sz <= n
      modifies this`stack
      ensures fresh(stack) && stack.Length == n * tokenSize && old(stack.Length) <= stack.Length
      ensures forall k | 0 <= k < old(stack.Length) :: stack[k] == old(stack[k])
    {
      Times(sz, n, tokenSize);
      var b := new byte[n * tokenSize];
      forall k | 0 <= k < stack.Length {
        b[k] := stack[k];
      }
      stack := b;
    }

    /** Clear `len` bytes from `from` on, which must lie inside the buffer. */
    method Clear(from: nat, len: nat)
      requires from + len <= stack.Length
      modifies stack
      ensures forall k | 0 <= k < stack.Length :: stack[k] == if from <= k < from + len then 0 else old(stack[k])
    {
      forall k | from <= k < from + len {
        stack[k] := 0;
      }
    }

    /** Copy a token into the buffer. */
    method Store(from: nat, w: seq<byte>)
      requires from + |w| <= stack.Length
      modifies stack
      ensures forall k | 0 <= k < stack.Length :: stack[k] == if from <= k < from + |w| then w[k - from] else old(stack[k])
    {
      forall k | from <= k < from + |w| {
        stack[k] := w[k - from];
      }
    }

    /** Where the next token goes. */
    lemma NextToken()
      requires Valid()
      ensures Wrap(sp + 1) == count && Wrap(tokSp + tokenSize) == count * tokenSize < WORD
    {
      hide Wrap;
      Spread(count - 1, 1, tokenSize);
      OffsetFits(count, tokenSize);
      WrapAdd((count - 1) * tokenSize, tokenSize);
      WrapAdd(count - 1, 1);
      WrapSmall(count * tokenSize);
      WrapSmall(count);
    }

    /** Make room for the token at index `sp`, and clear what is behind it. */
    method MakeRoom(ghost n: nat)
      requires 1 <= tokenSize < 1024 && stack.Length == sz * tokenSize && sz + 1024 < CAPACITY
      requires n <= sz && sp == n && tokSp == n * tokenSize
      modifies this`sz, this`stack
      ensures stack.Length == sz * tokenSize && n < sz < CAPACITY && (stack == old(stack) || fresh(stack))
      ensures n * tokenSize <= old(stack.Length) <= stack.Length
      ensures forall k | 0 <= k < n * tokenSize :: stack[k] == old(stack[k])
    {
      Times(n, sz, tokenSize);
      if sz <= tokSp {
        Realloc(sz + 1024);
        sz := sz + 1024;
        Fits(n, sz, sp, tokenSize);
        Clear(tokSp + tokenSize, (sz - sp - 1) * tokenSize);
      } else {
        RoomLeft(n, sz, tokenSize);
      }
    }

    /** Push the token `w`. */
    method Push(w: seq<byte>)
      requires Valid() && |w| == tokenSize && sz + 1024 < CAPACITY
      modifies this, stack
      ensures Valid() && Tokens() == old(Tokens()) + [w]
      ensures stack == old(stack) || fresh(stack)
    {
      hide Wrap, At;
      NextToken();
      ghost var n, before := count, stack[..];
      sp := Wrap(sp + 1);
      tokSp := Wrap(tokSp + tokenSize);
      MakeRoom(n);
      Spread(n, 1, tokenSize);
      Times(n + 1, sz, tokenSize);
      Store(tokSp, w);
      count := count + 1;
      Pushed(before, stack[..], n, tokenSize, w);
      assert count - 1 == n;
      WrapSmall(n);
      WrapSmall(n * tokenSize);
    }

    /** Pop a token, which stays readable until something else is pushed. */
    method Pop() returns (w: seq<byte>)
      requires Valid() && sp != WORD - 1
      modifies this`sp, this`tokSp, this`count
      ensures Valid() && old(Tokens()) == Tokens() + [w]
    {
      NotEmpty();
      ghost var n := count;
      LastToken();
      w := stack[tokSp..tokSp + tokenSize];
      assert w == At(stack[..], n - 1, tokenSize);
      BackToken();
      hide Wrap;
      sp := Wrap(sp - 1);
      tokSp := Wrap(tokSp - tokenSize);
      count := count - 1;
    }

    /** The stack pointer is all ones exactly when there is no token. */
    lemma NotEmpty()
      requires Valid()
      ensures sp == WORD - 1 <==> count == 0
      ensures count > 0 ==> sp == count - 1
    {
    }

    lemma LastToken()
      requires Valid() && count > 0
      ensures tokSp == (count - 1) * tokenSize && tokSp + tokenSize == count * tokenSize <= stack.Length
    {
      OffsetFits(count - 1, tokenSize);
      Spread(count - 1, 1, tokenSize);
      Times(count, sz, tokenSize);
      WrapSmall((count - 1) * tokenSize);
    }

    lemma BackToken()
      requires Valid() && count > 0
      ensures Wrap(sp - 1) == Wrap(count - 2) && Wrap(tokSp - tokenSize) == Wrap((count - 2) * tokenSize)
    {
      LastToken();
      NotEmpty();
      Spread(count - 2, 1, tokenSize);
    }

    /** The offset of the token `relOfs` from the last one; none if the guard stops the program. */
    method Peek(relOfs: int) returns (r: Option<int>)
      requires Valid() && relOfs <= 0 && relOfs + HALF > 0
      ensures count > 0 ==> (r.Some? <==> -relOfs < count)
      ensures count > 0 && r.Some? ==> r.value == (count - 1 + relOfs) * tokenSize && 0 <= r.value && r.value + tokenSize <= stack.Length
      ensures count == 0 ==> r.Some?
    {
      NotEmpty();
      WrapSmall(-relOfs);
      if sp < Wrap(-relOfs) {
        return None;
      }
      if count > 0 {
        LastToken();
        Spread(count - 1, relOfs, tokenSize);
        Times(0, count - 1 + relOfs, tokenSize);
        Times(count + relOfs, count, tokenSize);
        Spread(count - 1 + relOfs, 1, tokenSize);
      }
      return Some(tokSp + relOfs * tokenSize);
    }

    /** Make room for `n` more tokens; those beyond the old buffer are zero. */
    method Grow(n: nat)
      requires Valid() && n < 16384 && sz + 16384 < CAPACITY
      modifies this, stack
      ensures Valid() && count == old(count) + n && Tokens()[..old(count)] == old(Tokens())
      ensures forall i | old(sz) <= i < count :: Tokens()[i] == Zero(tokenSize)
      ensures forall i | old(count) <= i < count && i < old(sz) :: Tokens()[i] == At(old(stack[..]), i, tokenSize)
    {
      ghost var old_, before := count, stack[..];
      GrownToken(n);
      hide Wrap;
      sp := Wrap(sp + n);
      tokSp := Wrap(tokSp + tokenSize * n);
      count := count + n;
      ghost var size := sz;
      Times(old_, size, tokenSize);
      if sz <= tokSp {
        Realloc(sz + 16384);
        Spread(sz, 16384, tokenSize);
        Clear(sz * tokenSize, 16384 * tokenSize);
        sz := sz + 16384;
        ClearTokens(stack[..], size, sz, tokenSize);
      } else if count > 0 {
        RoomLeft(count - 1, sz, tokenSize);
      }
      SameTokens(before, stack[..], size, tokenSize);
    }

    lemma GrownToken(n: nat)
      requires Valid() && n < 16384 && sz + 16384 < CAPACITY
      ensures Wrap(sp + n) == Wrap(count + n - 1) && Wrap(tokSp + tokenSize * n) == Wrap((count + n - 1) * tokenSize)
      ensures count + n > 0 ==> Wrap((count + n - 1) * tokenSize) == (count + n - 1) * tokenSize
    {
      hide Wrap;
      Spread(count - 1, n, tokenSize);
      WrapAdd(count - 1, n);
      WrapAdd((count - 1) * tokenSize, tokenSize * n);
      if count + n > 0 {
        OffsetFits(count + n - 1, tokenSize);
        WrapSmall((count + n - 1) * tokenSize);
      }
    }

    /** Give back the last `n` tokens. */
    method Shrink(n: nat)
      requires Valid() && n <= count
      modifies this`sp, this`tokSp, this`count
      ensures Valid() && Tokens() == old(Tokens())[..old(count) - n]
    {
      ShrunkToken(n);
      hide Wrap;
      sp := Wrap(sp - n);
      tokSp := Wrap(tokSp - tokenSize * n);
      count := count - n;
    }

    lemma ShrunkToken(n: nat)
      requires Valid() && n <= count
      ensures Wrap(sp - n) == Wrap(count - n - 1) && Wrap(tokSp - tokenSize * n) == Wrap((count - n - 1) * tokenSize)
    {
      hide Wrap;
      Spread(count - 1, 0 - n, tokenSize);
      WrapSub(count - 1, n);
      WrapSub((count - 1) * tokenSize, tokenSize * n);
    }
  }

  /** A buffer with the old tokens and `w` behind them. */
  lemma Pushed(a: seq<byte>, b: seq<byte>, n: nat, t: nat, w: seq<byte>)
    requires n * t <= |a| && 0 <= n * t <= (n + 1) * t <= |b| && |w| == t
    requires (forall k | 0 <= k < n * t :: a[k] == b[k]) && b[n * t..(n + 1) * t] == w
    ensures seq(n + 1, i requires 0 <= i < n + 1 => At(b, i, t)) == seq(n, i requires 0 <= i < n => At(a, i, t)) + [w]
  {
    SameTokens(a, b, n, t);
  }

  lemma OffsetFits(n: nat, t: nat)
    requires n <= CAPACITY && t < 1024
    ensures 0 <= n * t <= 0x400_0000_0000
  {
    Times(n, CAPACITY, t);
    Times(t, 1024, CAPACITY);
  }

  lemma WrapSmall(x: int)
    requires 0 <= x < WORD
    ensures Wrap(x) == x
  {
  }

  lemma WrapAdd(x: int, y: nat)
    ensures Wrap(Wrap(x) + y) == Wrap(x + y)
  {
  }

  lemma WrapSub(x: int, y: nat)
    ensures Wrap(Wrap(x) - y) == Wrap(x - y)
  {
  }

  /** When the offset test passes, the token index is inside the buffer, although one counts bytes and the other tokens. */
  lemma RoomLeft(n: nat, sz: nat, t: nat)
    requires n * t < sz && t >= 1
    ensures n < sz
  {
    Times(1, t, n);
  }

  /** After growing, what is cleared behind the new token ends with the buffer. */
  lemma Fits(n: nat, sz: nat, sp: nat, t: nat)
    requires sp == n && n + 1024 <= sz
    ensures (sz - sp - 1) * t >= 0 && n * t + t + (sz - sp - 1) * t == sz * t
  {
    Spread(n + 1, sz - sp - 1, t);
    Spread(n, 1, t);
    Times(0, sz - sp - 1, t);
  }
}
