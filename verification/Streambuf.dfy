/** asio's basic_streambuf: one heap buffer, a get area and a put area inside it, and a byte
    FIFO as its meaning. Pointers into the buffer are offsets from its first element, whose own
    address counts where the source adds to a pointer: addresses are numbers modulo 2^64. */
module Streambuf {
  import opened Bytes

  const BUFFER_DELTA: nat := 128

  /** What an operation that may throw std::length_error did. */
  datatype Outcome = Returned | LengthError

  /** The conversion to `int` that the stream's bump operations take: 32 bits, signed. */
  function ToInt(n: nat): (r: int)
    ensures r == n <==> n < 0x8000_0000
  {
    var low := n % TWO_32;
    if low < 0x8000_0000 then low else low - TWO_32
  }

  /** It is the one 32-bit signed number that differs from the count by a multiple of 2^32. */
  lemma ToIntWraps(n: nat)
    ensures -0x8000_0000 <= ToInt(n) < 0x8000_0000 && (n - ToInt(n)) % TWO_32 == 0
  {
    var low := n % TWO_32;
    assert n == TWO_32 * (n / TWO_32) + low;
    if low >= 0x8000_0000 {
      assert n - ToInt(n) == TWO_32 * (n / TWO_32 + 1);
    }
  }

  /** The most elements `std::vector<char>` can have, whatever its allocator: the maximum of a
      signed 64-bit difference. */
  const VECTOR_LIMIT: nat := 0x7fff_ffff_ffff_ffff

  function Min(a: nat, b: nat): nat {
    if a < b then a else b
  }

  /** `s` after the bytes [g, p) have been moved to its front. */
  function Shifted(s: seq<byte>, g: nat, p: nat): (t: seq<byte>)
    requires g <= p <= |s|
    ensures |t| == |s|
  {
    seq(|s|, i requires 0 <= i < |s| => if i < p - g then s[g + i] else s[i])
  }

  lemma ShiftedFront(s: seq<byte>, g: nat, p: nat)
    requires g <= p <= |s|
    ensures Shifted(s, g, p)[..p - g] == s[g..p]
  {
  }

  ghost predicate ShiftInvisible(s: seq<byte>, g: nat, p: nat)
    requires g <= p <= |s|
  {
    forall i :: g <= i < p - g ==> s[i + g] == s[i]
  }

  /** A reserve that throws has already moved the bytes but not the positions. The unread bytes
      survive it exactly when shifting them by the read position changes nothing. */
  lemma ContentsAfterFailedReserve(s: seq<byte>, g: nat, p: nat)
    requires g <= p <= |s|
    ensures Shifted(s, g, p)[g..p] == s[g..p] <==> ShiftInvisible(s, g, p)
  {
    var t := Shifted(s, g, p);
    forall i | g <= i < p ensures t[i] == if i < p - g then s[i + g] else s[i] {
    }
    if t[g..p] == s[g..p] {
      forall i | g <= i < p - g ensures s[i + g] == s[i] {
        assert t[g..p][i - g] == s[g..p][i - g];
      }
    } else {
      var j :| 0 <= j < p - g && t[g..p][j] != s[g..p][j];
      assert t[g + j] != s[g + j];
    }
  }

  ghost predicate Survives(s: seq<byte>, g: nat, p: nat)
    requires g <= p <= |s|
  {
    Shifted(s, g, p)[g..p] == s[g..p]
  }

  lemma NotSurvived(s: seq<byte>, g: nat, p: nat)
    requires 0 < g && 2 * g < p <= |s| && s[2 * g] != s[g]
    ensures !Survives(s, g, p)
  {
    ContentsAfterFailedReserve(s, g, p);
    assert s[g + g] != s[g];
  }

  /** Said of the positions alone: a throw leaves the unread bytes intact, whatever they are,
      exactly when nothing has been read or they fit into the space already read. */
  lemma SurvivesByPosition(g: nat, p: nat)
    requires g <= p
    ensures (forall s: seq<byte> :: p <= |s| ==> Survives(s, g, p)) <==> g == 0 || p <= 2 * g
  {
    if g == 0 || p <= 2 * g {
      forall s: seq<byte> | p <= |s| ensures Survives(s, g, p) {
        ContentsAfterFailedReserve(s, g, p);
      }
    } else {
      var s: seq<byte> := seq(p, i => if i == 2 * g then 1 else 0);
      NotSurvived(s, g, p);
    }
  }

  /** Three bytes, one already read: the two unread bytes [2, 3] become [3, 3]. */
  lemma FailedReserveCanCorrupt()
    ensures Shifted([1, 2, 3], 1, 3)[1..3] == [3, 3] != [1, 2, 3][1..3]
  {
    assert Shifted([1, 2, 3], 1, 3) == [2, 3, 3];
    assert [1, 2, 3][1..3][0] == 2;
  }

  /** An address for a buffer of `size` bytes: neither null nor so high that its end wraps. */
  predicate Placed(address: nat, size: nat) {
    0 < address && address + size < TWO_64
  }

  /** A pointer and a count added in 64 bits. */
  function PointerSum(pointer: uint64, n: uint64): uint64 {
    if pointer + n < TWO_64 then pointer + n else pointer + n - TWO_64
  }

  lemma PointerSumWraps(pointer: uint64, n: uint64)
    ensures PointerSum(pointer, n) == (pointer + n) % TWO_64
  {
    if pointer + n >= TWO_64 {
      assert pointer + n == TWO_64 + (pointer + n - TWO_64);
    }
  }

  /** `consume`: how far the read position `g` moves towards the write position `p`, in a buffer at
      `address`. */
  function ConsumeStep(address: nat, g: nat, p: nat, n: uint64): int
    requires g <= p && Placed(address, p)
  {
    ToInt(if PointerSum(address + g, n) > address + p then p - g else n)
  }

  /** The documentation's meaning of `consume`: the count, capped by the size. */
  predicate ConsumesExactly(address: nat, g: nat, p: nat, n: uint64)
    requires g <= p && Placed(address, p)
  {
    ConsumeStep(address, g, p, n) == Min(n, p - g)
  }

  /** Without a wrap the cap works and only the 32-bit bump limits the count. With one the cap is
      skipped, and the count is right only if its low 32 bits happen to be the size. */
  lemma ConsumeLimits(address: nat, g: nat, p: nat, n: uint64)
    requires g <= p && Placed(address, p)
    ensures ConsumesExactly(address, g, p, n) <==>
      if address + g + n < TWO_64 then Min(n, p - g) < 0x8000_0000 else ToInt(n) == p - g
  {
  }

  /** Said of count and size alone, for a caller who does not choose the address: `consume` is right
      wherever the buffer lies exactly for a count up to the size and below 2^31, or for one that
      the conversion to 32 bits turns into the size. */
  lemma ConsumeLimitsAnywhere(g: nat, p: nat, n: uint64)
    requires g <= p < TWO_64 - 1
    ensures (forall address: nat :: Placed(address, p) ==> ConsumesExactly(address, g, p, n))
      <==> (n <= p - g && n < 0x8000_0000) || (n > p - g && ToInt(n) == p - g)
  {
    forall address: nat | Placed(address, p)
      ensures ConsumesExactly(address, g, p, n) <==>
        if address + g + n < TWO_64 then Min(n, p - g) < 0x8000_0000 else ToInt(n) == p - g
    {
      ConsumeLimits(address, g, p, n);
    }
    assert Placed(TWO_64 - 1 - p, p);
  }

  /** The largest count takes the read position one back, wherever it is and wherever the buffer
      lies: a byte returns instead of all being consumed. */
  lemma ConsumeCanUnread(address: nat, g: nat, p: nat, n: uint64)
    requires g <= p && Placed(address, p) && n == TWO_64 - 1
    ensures ConsumeStep(address, g, p, n) == -1
  {
  }

  lemma DropFront(s: seq<byte>, g: nat, p: nat, appended: seq<byte>, taken: nat, k: nat)
    requires g + k <= p <= |s| && taken <= |appended| && s[g..p] == appended[taken..]
    ensures taken + k <= |appended| && s[g + k..p] == appended[taken + k..]
  {
    assert |s[g..p]| == |appended[taken..]|;
    assert s[g..p][k..] == s[g + k..p];
    assert appended[taken..][k..] == appended[taken + k..];
  }

  /** `reserve` cannot make room: the maximum of the streambuf or the limit of its vector. */
  predicate TooLong(size: nat, n: nat, maxSize: nat, limit: nat) {
    size + n > maxSize || size + n > limit
  }

  /** `overflow` asks for up to 128 bytes at once: it gives up at the maximum size, and already when
      so many would exceed the vector's limit. */
  predicate CannotGrow(size: nat, maxSize: nat, limit: nat) {
    size >= maxSize || size + Min(BUFFER_DELTA, maxSize - size) > limit
  }

  /** In terms of what is left: nothing to the maximum size, or to the limit fewer bytes than are
      asked for. */
  lemma CannotGrowExactly(size: nat, maxSize: nat, limit: nat)
    requires size <= maxSize && size <= limit
    ensures CannotGrow(size, maxSize, limit) <==>
      maxSize - size == 0 || (limit - size < 128 && limit < maxSize)
  {
  }

  /** `std::memmove` of [from, from + n) to the front of the same array. */
  method MoveDown(a: array<byte>, from: nat, n: nat)
    requires from + n <= a.Length
    modifies a
    ensures a[..] == Shifted(old(a[..]), from, from + n)
  {
    for i := 0 to n
      invariant forall j :: 0 <= j < i ==> a[j] == old(a[from + j])
      invariant forall j :: i <= j < a.Length ==> a[j] == old(a[j])
    {
      a[i] := a[from + i];
    }
  }

  /** `std::vector::resize` within the vector's limit: the same elements, then zeros, at some
      address. */
  method Resize(a: array<byte>, n: nat) returns (b: array<byte>, address: nat)
    requires a.Length <= n <= VECTOR_LIMIT
    ensures fresh(b) && b.Length == n && b[..a.Length] == a[..] && Placed(address, n)
  {
    address := Allocate(n);
    b := new byte[n](_ => 0);
    for i := 0 to a.Length
      invariant b[..i] == a[..i]
    {
      b[i] := a[i];
    }
  }

  /** Where the allocator puts `n` bytes is its own choice. */
  method Allocate(n: nat) returns (address: nat)
    requires n <= VECTOR_LIMIT
    ensures Placed(address, n)
  {
    assert Placed(1, n);
    address :| Placed(address, n);
  }

  class BasicStreambuf {
    const maxSize: uint64
    // `buffer_.max_size()`, which depends on the allocator.
    const limit: nat
    var buffer: array<byte>
    // The address of the buffer's first element.
    var address: nat
    // The get area [eback, egptr) with read position gptr, the put area [pbase, epptr) with
    // write position pptr.
    var eback: int
    var gptr: int
    var egptr: int
    var pbase: int
    var pptr: int
    var epptr: int
    // Every byte ever appended, and how many of them have been consumed.
    ghost var appended: seq<byte>
    ghost var taken: nat

    ghost predicate Valid()
      reads this, buffer
    {
      && 0 == eback <= gptr <= egptr <= pptr && 0 <= pbase <= pptr <= epptr <= maxSize
      && buffer.Length == (if epptr == 0 then 1 else epptr) <= limit <= VECTOR_LIMIT
      && Placed(address, buffer.Length)
      && taken <= |appended|
      && buffer[gptr..pptr] == appended[taken..]
    }

    /** The unread bytes: what was appended minus what was consumed, in order. */
    ghost function Contents(): seq<byte>
      reads this, buffer
      requires Valid()
      ensures Contents() == appended[taken..]
    {
      buffer[gptr..pptr]
    }

    function Size(): nat
      reads this, buffer
      requires Valid()
      ensures Size() == |Contents()| <= maxSize
    {
      pptr - gptr
    }

    /** The first bytes of the buffer have to be within the vector's limit. */
    constructor (maximumSize: uint64, vectorLimit: nat)
      requires 1 <= vectorLimit <= VECTOR_LIMIT && Min(maximumSize, BUFFER_DELTA) <= vectorLimit
      ensures Valid() && maxSize == maximumSize && limit == vectorLimit
      ensures gptr == pptr == 0 && epptr == Min(maximumSize, BUFFER_DELTA)
      ensures appended == [] && taken == 0 && fresh(buffer)
    {
      maxSize, limit := maximumSize, vectorLimit;
      var pend := Min(maximumSize, BUFFER_DELTA);
      var size := if pend == 0 then 1 else pend;
      var place := Allocate(size);
      buffer, address := new byte[size](_ => 0), place;
      eback, gptr, egptr := 0, 0, 0;
      pbase, pptr, epptr := 0, 0, pend;
      appended, taken := [], 0;
    }

    /** Makes room for `n` more bytes, shifting the unread bytes to the front and growing the
        buffer as needed. The shift comes before either length check. */
    method Reserve(n: uint64) returns (outcome: Outcome)
      requires Valid()
      modifies this, buffer
      ensures outcome == LengthError <==> old(pptr - gptr) + n > maxSize || old(pptr - gptr) + n > limit
      ensures appended == old(appended) && taken == old(taken)
      ensures outcome == Returned ==> Valid() && pptr + n <= epptr
      ensures outcome == LengthError ==> JustShifted()
      ensures buffer == old(buffer) || fresh(buffer)
    {
      if n <= epptr - pptr {
        return Returned;
      }
      outcome := ShiftAndGrow(n);
    }

    /** What a throw leaves: the unread bytes are at the front, the positions where they were. */
    twostate predicate JustShifted()
      requires old(0 <= gptr <= pptr <= buffer.Length)
      reads this, buffer
    {
      && buffer == old(buffer) && address == old(address)
      && buffer[..] == Shifted(old(buffer[..]), old(gptr), old(pptr))
      && unchanged(`eback) && unchanged(`gptr) && unchanged(`egptr)
      && unchanged(`pbase) && unchanged(`pptr) && unchanged(`epptr)
    }

    /** The slow path of Reserve. */
    method ShiftAndGrow(n: uint64) returns (outcome: Outcome)
      requires Valid() && n > epptr - pptr
      modifies this`eback, this`gptr, this`egptr, this`pbase, this`pptr, this`epptr, this`buffer, this`address, buffer
      ensures outcome == LengthError <==> TooLong(old(pptr - gptr), n, maxSize, limit)
      ensures outcome == Returned ==> Valid() && pptr + n <= epptr
      ensures outcome == LengthError ==> JustShifted()
      ensures buffer == old(buffer) || fresh(buffer)
    {
      var pnext := ShiftDown();
      outcome := CheckLength(pnext, n);
      if outcome == Returned {
        GrowAndPlace(pnext, n);
      }
    }

    /** The two checks: `reserve`'s own, and that of `buffer_.resize`, which changes nothing when
        it throws. */
    method CheckLength(pnext: nat, n: uint64) returns (outcome: Outcome)
      requires pnext <= epptr <= maxSize && epptr <= limit
      ensures outcome == LengthError <==> TooLong(pnext, n, maxSize, limit)
    {
      outcome := Returned;
      if n > epptr - pnext {
        if !(n <= maxSize && pnext <= maxSize - n) {
          return LengthError;
        }
        if pnext + n > limit {
          return LengthError;
        }
      }
    }

    /** The rest of `reserve`, for `pnext` unread bytes at the front and room for `n` more. */
    method GrowAndPlace(pnext: nat, n: nat)
      requires pnext <= epptr <= maxSize && buffer.Length == (if epptr == 0 then 1 else epptr) <= limit <= VECTOR_LIMIT
      requires n > 0 && !TooLong(pnext, n, maxSize, limit)
      requires taken <= |appended| && buffer[..pnext] == appended[taken..] && Placed(address, buffer.Length)
      modifies this`eback, this`gptr, this`egptr, this`pbase, this`pptr, this`epptr, this`buffer, this`address
      ensures Valid() && pptr + n <= epptr
      ensures buffer == old(buffer) || fresh(buffer)
    {
      var pend := epptr;
      if n > pend - pnext {
        pend := pnext + n;  // at least 1, since n > 0
        Grow(pnext, pend);
      }
      SetPositions(pnext, pend);
    }

    /** `buffer_.resize`. */
    method Grow(pnext: nat, pend: nat)
      requires pnext <= buffer.Length <= pend <= VECTOR_LIMIT
      modifies this`buffer, this`address
      ensures fresh(buffer) && buffer.Length == pend && buffer[..pnext] == old(buffer[..pnext])
      ensures Placed(address, pend)
    {
      ghost var before := buffer[..];
      buffer, address := Resize(buffer, pend);
      assert buffer[..pnext] == before[..pnext];
    }

    /** The closing `setg` and `setp`. */
    method SetPositions(pnext: nat, pend: nat)
      requires pnext <= pend <= maxSize && buffer.Length == (if pend == 0 then 1 else pend) <= limit <= VECTOR_LIMIT
      requires taken <= |appended| && buffer[..pnext] == appended[taken..] && Placed(address, buffer.Length)
      modifies this`eback, this`gptr, this`egptr, this`pbase, this`pptr, this`epptr
      ensures Valid() && pptr == pnext && epptr == pend
    {
      eback, gptr, egptr := 0, 0, pnext;
      pbase, pptr, epptr := pnext, pnext, pend;
      assert buffer[gptr..pptr] == buffer[..pnext];
    }

    /** Moves the unread bytes to the front, without touching the positions. */
    method ShiftDown() returns (pnext: nat)
      requires Valid()
      modifies buffer
      ensures pnext == pptr - gptr && buffer[..pnext] == appended[taken..]
      ensures buffer[..] == Shifted(old(buffer[..]), gptr, pptr)
    {
      pnext := pptr;
      if gptr > 0 {
        pnext := pnext - gptr;
        MoveDown(buffer, gptr, pnext);
      }
      ShiftedFront(old(buffer[..]), gptr, pptr);
    }

    /** The output sequence of `n` bytes starts at the write position. A throw leaves the
        bytes shifted; ContentsAfterFailedReserve says when that is visible. */
    method Prepare(n: uint64) returns (outcome: Outcome)
      requires Valid()
      modifies this, buffer
      ensures outcome == LengthError <==> old(pptr - gptr) + n > maxSize || old(pptr - gptr) + n > limit
      ensures appended == old(appended) && taken == old(taken)
      ensures outcome == Returned ==> Valid() && pptr + n <= epptr
      ensures outcome == LengthError ==> JustShifted()
      ensures buffer == old(buffer) || fresh(buffer)
    {
      outcome := Reserve(n);
    }

    /** Moves up to `n` bytes of the put area into the get area. The bump takes a 32-bit `int`:
        the positions are right exactly when the count is below 2^31. */
    method Commit(n: uint64)
      requires Valid()
      modifies this
      ensures unchanged(`gptr) && unchanged(`epptr) && unchanged(`buffer) && unchanged(`address) && taken == old(taken)
      ensures var k := Min(n, old(epptr - pptr));
        && (pptr == old(pptr) + k <==> k < 0x8000_0000)
        && (k < 0x8000_0000 ==> Valid() && appended == old(appended) + old(buffer[pptr..pptr + k]))
    {
      var k := Min(n, epptr - pptr);
      if k < 0x8000_0000 {
        assert buffer[gptr..pptr + k] == buffer[gptr..pptr] + buffer[pptr..pptr + k];
        assert (appended + buffer[pptr..pptr + k])[taken..] == appended[taken..] + buffer[pptr..pptr + k];
        appended := appended + buffer[pptr..pptr + k];
      }
      pptr := pptr + ToInt(k);
      egptr := pptr;
    }

    /** Drops up to `n` unread bytes where ConsumesExactly holds, which ConsumeLimits says. */
    method Consume(n: uint64)
      requires Valid()
      modifies this
      ensures unchanged(`pptr) && unchanged(`epptr) && unchanged(`buffer) && unchanged(`address)
      ensures appended == old(appended)
      ensures eback == 0 && egptr == pptr && gptr == old(gptr) + ConsumeStep(address, old(gptr), pptr, n)
      ensures var k := Min(n, old(Size()));
        && (gptr == old(gptr) + k <==> ConsumesExactly(address, old(gptr), pptr, n))
        && (gptr == old(gptr) + k ==> Valid() && taken == old(taken) + k)
    {
      if egptr < pptr {
        eback, egptr := 0, pptr;
      }
      var k := if PointerSum(address + gptr, n) > address + pptr then pptr - gptr else n;
      GetBump(ToInt(k));
    }

    /** `gbump(moved)`. */
    method GetBump(moved: int)
      requires Valid() && egptr == pptr
      modifies this`gptr, this`taken
      ensures gptr == old(gptr) + moved
      ensures 0 <= moved <= old(pptr - gptr) ==> Valid() && taken == old(taken) + moved
    {
      if 0 <= moved <= pptr - gptr {
        DropFront(buffer[..], gptr, pptr, appended, taken, moved);
        taken := taken + moved;
      }
      gptr := gptr + moved;
    }

    /** The next unread byte, or -1; extends the get area over everything written. */
    method Underflow() returns (c: int)
      requires Valid()
      modifies this
      ensures Valid() && appended == old(appended) && taken == old(taken)
      ensures unchanged(`gptr) && unchanged(`pptr) && unchanged(`buffer)
      ensures c == if Contents() == [] then -1 else Contents()[0]
      ensures Contents() != [] ==> egptr == pptr
    {
      if gptr < pptr {
        eback, egptr := 0, pptr;
        c := buffer[gptr];
      } else {
        c := -1;
      }
    }

    /** Appends a byte (or nothing for end-of-file, -1), making room when the put area is full. */
    method Overflow(c: int) returns (outcome: Outcome)
      requires Valid() && -1 <= c < 256
      modifies this, buffer
      ensures outcome == LengthError <==> c != -1 && old(pptr == epptr && CannotGrow(pptr - gptr, maxSize, limit))
      ensures outcome == Returned ==> Valid()
      ensures outcome == LengthError ==> JustShifted()
      ensures taken == old(taken)
      ensures appended == if outcome == Returned && c != -1 then old(appended) + [c] else old(appended)
      ensures buffer == old(buffer) || fresh(buffer)
    {
      outcome := Returned;
      if c != -1 {
        if pptr == epptr {
          outcome := MakeRoom();
          if outcome == LengthError {
            return;
          }
        }
        Store(c);
      }
    }

    /** Reserves 128 bytes, or the fewer that are left to the maximum size. */
    method MakeRoom() returns (outcome: Outcome)
      requires Valid() && pptr == epptr
      modifies this, buffer
      ensures outcome == LengthError <==> CannotGrow(old(pptr - gptr), maxSize, limit)
      ensures appended == old(appended) && taken == old(taken)
      ensures outcome == Returned ==> Valid() && pptr < epptr
      ensures outcome == LengthError ==> JustShifted()
      ensures buffer == old(buffer) || fresh(buffer)
    {
      var size := pptr - gptr;
      if size < maxSize && maxSize - size < BUFFER_DELTA {
        outcome := Reserve(maxSize - size);
      } else {
        outcome := Reserve(BUFFER_DELTA);
      }
    }

    /** Stores a byte at the write position and bumps it. */
    method Store(c: byte)
      requires Valid() && pptr < epptr
      modifies this`pptr, this`appended, buffer
      ensures Valid() && appended == old(appended) + [c] && pptr == old(pptr) + 1
    {
      buffer[pptr] := c;
      appended := appended + [c];
      pptr := pptr + 1;
    }

    /** `sputc`: store in the put area, or overflow. */
    method Put(c: byte) returns (outcome: Outcome)
      requires Valid()
      modifies this, buffer
      ensures outcome == LengthError <==> old(pptr == epptr && CannotGrow(pptr - gptr, maxSize, limit))
      ensures outcome == Returned ==> Valid() && appended == old(appended) + [c]
      ensures outcome == LengthError ==> JustShifted()
      ensures taken == old(taken) && (outcome == LengthError ==> appended == old(appended))
      ensures old(pptr < epptr) ==> unchanged(`gptr) && pptr == old(pptr) + 1
    {
      if pptr < epptr {
        Store(c);
        outcome := Returned;
      } else {
        outcome := Overflow(c);
      }
    }

    /** `sbumpc`: the next byte of the get area, refilled by underflow. */
    method Get() returns (c: int)
      requires Valid()
      modifies this
      ensures Valid() && appended == old(appended)
      ensures c == if old(Contents()) == [] then -1 else old(Contents())[0]
      ensures taken == old(taken) + if old(Contents()) == [] then 0 else 1
    {
      if gptr < egptr {
        c := Take();
      } else {
        c := Underflow();
        if c == -1 {
          return;
        }
        var next := Take();
        assert next == c;
      }
    }

    /** Reads the next byte of the get area and moves past it. */
    method Take() returns (c: byte)
      requires Valid() && gptr < egptr
      modifies this`gptr, this`taken
      ensures Valid() && old(Contents()) == [c] + Contents()
      ensures gptr == old(gptr) + 1 && taken == old(taken) + 1
    {
      c := buffer[gptr];
      assert buffer[gptr..pptr] == [c] + buffer[gptr + 1..pptr];
      assert appended[taken..][1..] == appended[taken + 1..];
      gptr := gptr + 1;
      taken := taken + 1;
    }
  }

  /** A new streambuf with the default maximum size: 2^63 bytes are within it, but `prepare`
      throws. */
  method PrepareWithinMaximumThrows() returns (b: BasicStreambuf, outcome: Outcome)
    ensures fresh(b) && b.maxSize == TWO_64 - 1 && b.limit == VECTOR_LIMIT
    ensures outcome == LengthError && 0x8000_0000_0000_0000 <= b.maxSize
  {
    b := new BasicStreambuf(TWO_64 - 1, VECTOR_LIMIT);
    outcome := b.Prepare(0x8000_0000_0000_0000);
  }

  method OneByte() returns (b: BasicStreambuf)
    ensures fresh(b) && b.Valid() && b.maxSize == 1 && b.gptr == 0 && b.pptr == 1
  {
    b := new BasicStreambuf(1, VECTOR_LIMIT);
    var outcome := b.Put(7);
  }

  /** A streambuf of at most one byte, which is there and unread: the largest count puts the read
      position before the buffer, and `size()` is then 2. */
  method ConsumeGrowsBeyondMaximum(n: uint64) returns (b: BasicStreambuf)
    requires n == TWO_64 - 1
    ensures fresh(b) && b.maxSize == 1 && b.gptr == -1 && b.pptr - b.gptr > b.maxSize
  {
    b := OneByte();
    ConsumeCanUnread(b.address, b.gptr, b.pptr, n);
    b.Consume(n);
  }
}
