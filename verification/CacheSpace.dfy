/** Admission of clipboard downloads against free disk space (internal/app/clipboard_cache_space.go), in the
    program's own 64-bit unsigned arithmetic. */
module CacheSpace {

  import opened Common

  newtype uint64 = x: int | 0 <= x < 0x1_0000_0000_0000_0000

  const MAX: uint64 := 0xFFFF_FFFF_FFFF_FFFF
  const BASE: uint64 := 0x100_0000
  const PER_ENTRY: uint64 := 4096
  const MAX_ENTRIES := 10000
  const MAX_SIZE := 0x4_0000_0000_0000
  const LEAST_GUARD: uint64 := 0x400_0000
  const MOST_GUARD: uint64 := 0x4000_0000

  type TransferId = nat

  // wellFormed: everything else transfer.Manifest.Validate checks.
  datatype Manifest = Manifest(transfer: TransferId, sizes: seq<int>, wellFormed: bool)

  predicate Valid(m: Manifest) {
    && m.wellFormed && 1 <= |m.sizes| <= MAX_ENTRIES
    && forall i | 0 <= i < |m.sizes| :: 0 <= m.sizes[i] <= MAX_SIZE
  }

  function Total(sizes: seq<int>): int {
    if sizes == [] then 0 else Total(sizes[..|sizes| - 1]) + sizes[|sizes| - 1]
  }

  // What a download may take, without regard to machine words.
  function Needed(m: Manifest): int {
    BASE as int + PER_ENTRY as int * |m.sizes| + Total(m.sizes)
  }

  lemma {:induction false} TotalBound(sizes: seq<int>)
    requires forall i | 0 <= i < |sizes| :: 0 <= sizes[i] <= MAX_SIZE
    ensures 0 <= Total(sizes) <= MAX_SIZE * |sizes|
  {
    if sizes != [] {
      TotalBound(sizes[..|sizes| - 1]);
    }
  }

  /** clipboardCacheSpaceRequired: for every valid manifest the sum is exact and its overflow branch is dead. */
  method SpaceRequired(m: Manifest) returns (required: Option<uint64>)
    ensures required.Some? <==> Valid(m)
    ensures required.Some? ==> required.value as int == Needed(m)
  {
    if !Valid(m) {
      return None;
    }
    TotalBound(m.sizes);
    var sum: uint64 := BASE + |m.sizes| as uint64 * PER_ENTRY;
    for i := 0 to |m.sizes|
      invariant sum as int == BASE as int + PER_ENTRY as int * |m.sizes| + Total(m.sizes[..i])
      invariant Total(m.sizes[..i]) <= MAX_SIZE * i
    {
      assert m.sizes[..i + 1][..i] == m.sizes[..i];
      if m.sizes[i] < 0 || m.sizes[i] as uint64 > MAX - sum {
        return None;
      }
      sum := sum + m.sizes[i] as uint64;
    }
    assert m.sizes[..|m.sizes|] == m.sizes;
    return Some(sum);
  }

  function Guard(available: uint64): uint64 {
    var hundredth := available / 100;
    var most := if hundredth < MOST_GUARD then hundredth else MOST_GUARD;
    if most > LEAST_GUARD then most else LEAST_GUARD
  }

  // ------------------------------------------------------------- outstanding sums

  ghost function Sum(reserved: map<TransferId, uint64>): int
    decreases |reserved|
  {
    if reserved == map[] then 0
    else
      var t :| t in reserved;
      reserved[t] as int + Sum(reserved - {t})
  }

  lemma {:induction false} SumWithout(reserved: map<TransferId, uint64>, t: TransferId)
    requires t in reserved
    ensures Sum(reserved) == reserved[t] as int + Sum(reserved - {t})
    decreases |reserved|
  {
    var u :| u in reserved && Sum(reserved) == reserved[u] as int + Sum(reserved - {u});
    if u != t {
      SumWithout(reserved - {u}, t);
      SumWithout(reserved - {t}, u);
      assert reserved - {u} - {t} == reserved - {t} - {u};
    }
  }

  lemma {:induction false} SumNatural(reserved: map<TransferId, uint64>)
    ensures Sum(reserved) >= 0
    decreases |reserved|
  {
    if reserved != map[] {
      var t :| t in reserved;
      SumWithout(reserved, t);
      SumNatural(reserved - {t});
    }
  }

  lemma SumWith(reserved: map<TransferId, uint64>, t: TransferId, amount: uint64)
    requires t !in reserved
    ensures Sum(reserved[t := amount]) == Sum(reserved) + amount as int
  {
    SumWithout(reserved[t := amount], t);
    assert reserved[t := amount] - {t} == reserved;
  }

  // The subtraction loop, for one order of visiting the reservations.
  function Subtract(order: seq<TransferId>, reserved: map<TransferId, uint64>, remaining: uint64): Option<uint64>
    requires forall t | t in order :: t in reserved
    decreases |order|
  {
    if order == [] then Some(remaining)
    else if reserved[order[0]] > remaining then None
    else Subtract(order[1..], reserved, remaining - reserved[order[0]])
  }

  /** Whatever order the reservations are visited in, the loop succeeds exactly when they fit together, and
      then leaves exactly what they leave. */
  lemma {:induction false} SubtractInAnyOrder(order: seq<TransferId>, reserved: map<TransferId, uint64>,
                                              remaining: uint64)
    requires (forall i, j | 0 <= i < j < |order| :: order[i] != order[j]) && forall t :: t in order <==> t in reserved
    ensures var left := Subtract(order, reserved, remaining);
            && (left.Some? <==> Sum(reserved) <= remaining as int)
            && (left.Some? ==> left.value as int == remaining as int - Sum(reserved))
    decreases |order|
  {
    SumNatural(reserved);
    if order == [] {
      assert reserved == map[];
    } else {
      var t := order[0];
      assert t in order;
      SumWithout(reserved, t);
      SumNatural(reserved - {t});
      if reserved[t] <= remaining {
        forall u
          ensures u in order[1..] <==> u in reserved - {t}
        {
          if u in order {
            var i :| 0 <= i < |order| && order[i] == u;
          }
        }
        SubtractInAnyOrder(order[1..], reserved - {t}, remaining - reserved[t]);
        SubtractWithout(order[1..], reserved, t, remaining - reserved[t]);
      }
    }
  }

  lemma {:induction false} SubtractWithout(order: seq<TransferId>, reserved: map<TransferId, uint64>, t: TransferId,
                                           remaining: uint64)
    requires t !in order && forall u | u in order :: u in reserved
    ensures Subtract(order, reserved - {t}, remaining) == Subtract(order, reserved, remaining)
    decreases |order|
  {
    if order != [] && reserved[order[0]] <= remaining {
      SubtractWithout(order[1..], reserved, t, remaining - reserved[order[0]]);
    }
  }

  // ------------------------------------------------------------------ the account

  // When a download is admitted: it and everything outstanding fit in what is free beyond the guard.
  ghost predicate Admissible(m: Manifest, reserved: map<TransferId, uint64>, available: Option<uint64>) {
    && Valid(m) && m.transfer !in reserved && available.Some?
    && Needed(m) + Sum(reserved) <= available.value as int - Guard(available.value) as int
  }

  /** The release function a reservation returns. */
  class Handle {
    const transfer: TransferId
    var done: bool

    constructor (transfer: TransferId)
      ensures this.transfer == transfer && !done
    {
      this.transfer := transfer;
      done := false;
    }
  }

  class Space {
    var reservations: map<TransferId, uint64>
    ghost var owners: map<TransferId, Handle>  // who will release each reservation
    ghost var issued: set<Handle>

    ghost predicate Valid()
      reads this, issued
    {
      && owners.Keys == reservations.Keys
      && (forall t | t in owners :: owners[t] in issued && owners[t].transfer == t && !owners[t].done)
      && forall h | h in issued && !h.done :: h.transfer in owners && owners[h.transfer] == h
    }

    constructor ()
      ensures Valid() && reservations == map[] && issued == {}
    {
      reservations, owners, issued := map[], map[], {};
    }

    method FitsBeside(required: uint64, available: uint64) returns (ok: bool)
      ensures ok <==> required as int + Sum(reservations) <= available as int - Guard(available) as int
    {
      SumNatural(reservations);
      var guard := Guard(available);
      if available < guard || required > available - guard {
        return false;
      }
      var remaining := available - guard - required;
      var left := reservations;
      while left != map[]
        invariant left.Keys <= reservations.Keys && forall t | t in left :: left[t] == reservations[t]
        invariant remaining as int - Sum(left) == available as int - guard as int - required as int - Sum(reservations)
        decreases |left|
      {
        var t :| t in left;
        SumWithout(left, t);
        SumNatural(left - {t});
        if left[t] > remaining {
          return false;
        }
        remaining := remaining - left[t];
        left := left - {t};
      }
      return true;
    }

    method Reserve(m: Manifest, available: Option<uint64>) returns (h: Handle?)
      requires Valid()
      modifies this
      ensures Valid()
      ensures h != null <==> Admissible(m, old(reservations), available)
      ensures h == null ==> reservations == old(reservations) && issued == old(issued)
      ensures h != null ==> fresh(h) && h.transfer == m.transfer && !h.done && issued == old(issued) + {h}
      ensures h != null ==> m.transfer in reservations
                            && reservations == old(reservations)[m.transfer := reservations[m.transfer]]
                            && Sum(reservations) == Sum(old(reservations)) + Needed(m)
    {
      var required := SpaceRequired(m);
      if required.None? || m.transfer in reservations || available.None? {
        return null;
      }
      var fits := FitsBeside(required.value, available.value);
      if !fits {
        return null;
      }
      SumWith(reservations, m.transfer, required.value);
      h := new Handle(m.transfer);
      reservations, owners, issued := reservations[m.transfer := required.value], owners[m.transfer := h], issued + {h};
    }

    /** Releasing twice is releasing once: a second call cannot free a later reservation of the same transfer. */
    method Release(h: Handle)
      requires Valid() && h in issued
      modifies this, h
      ensures Valid() && h.done && issued == old(issued)
      ensures reservations == if old(h.done) then old(reservations) else old(reservations) - {h.transfer}
      ensures !old(h.done) ==> h.transfer in old(reservations)
                               && Sum(reservations) == Sum(old(reservations)) - old(reservations)[h.transfer] as int
    {
      if h.done {
        return;
      }
      SumWithout(reservations, h.transfer);
      h.done := true;
      reservations, owners := reservations - {h.transfer}, owners - {h.transfer};
    }
  }

  // What the other downloads do meanwhile: reservations that were granted, and releases.
  datatype Move = Granted(transfer: TransferId, amount: uint64) | Released(transfer: TransferId)

  function After(reserved: map<TransferId, uint64>, moves: seq<Move>): map<TransferId, uint64>
    decreases |moves|
  {
    if moves == [] then reserved
    else
      match moves[0]
      case Granted(t, amount) => After(if t in reserved then reserved else reserved[t := amount], moves[1..])
      case Released(t) => After(reserved - {t}, moves[1..])
  }

  /** A reservation outlasts whatever other downloads reserve and release meanwhile, and its own release then
      leaves exactly the account, and the exact total, that there would be without it. */
  lemma {:induction false} ReleaseRestores(reserved: map<TransferId, uint64>, t: TransferId, amount: uint64,
                                           moves: seq<Move>)
    requires t !in reserved && forall m | m in moves :: m.transfer != t
    ensures var later := After(reserved[t := amount], moves);
            && t in later && later[t] == amount && later - {t} == After(reserved, moves)
            && Sum(later) - amount as int == Sum(After(reserved, moves))
    decreases |moves|
  {
    if moves == [] {
      SumWith(reserved, t, amount);
    } else {
      assert moves[0] in moves;
      var u := moves[0].transfer;
      if moves[0].Granted? && u !in reserved {
        assert reserved[t := amount][u := moves[0].amount] == reserved[u := moves[0].amount][t := amount];
        ReleaseRestores(reserved[u := moves[0].amount], t, amount, moves[1..]);
      } else if moves[0].Granted? {
        ReleaseRestores(reserved, t, amount, moves[1..]);
      } else {
        assert reserved[t := amount] - {u} == (reserved - {u})[t := amount];
        ReleaseRestores(reserved - {u}, t, amount, moves[1..]);
      }
    }
  }
}
