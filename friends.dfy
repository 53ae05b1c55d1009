/**
 * The friend registry: the ordered list of friend records the App component
 * keeps in its `friends` state, the per-entry balance update that a bill split
 * performs on it, and the three-way balance status each list row shows.
 */
module Friends {
  import opened Wrappers

  /** A friend's identifier. The three seed friends carry numbers; friends added
      through the form carry a generated UUID string. A number never equals a
      string under `===`, so the two kinds are kept apart. */
  datatype Id = Numeric(n: int) | Uuid(text: string)

  datatype Friend = Friend(id: Id, name: string, image: string, balance: int)

  /** The three friends every session starts with. */
  const InitialFriends: seq<Friend> := [
    Friend(Numeric(118836), "clark", "https://i.pravatar.cc/48?u=118836", -7),
    Friend(Numeric(933372), "Sarah", "https://i.pravatar.cc/48?u=933372", 20),
    Friend(Numeric(499476), "Anthony", "https://i.pravatar.cc/48?u=499476", 0)
  ]

  /** The identifiers of the registry, in list order. */
  function Ids(fs: seq<Friend>): (ids: seq<Id>)
    ensures |ids| == |fs|
    ensures forall i :: 0 <= i < |fs| ==> ids[i] == fs[i].id
  {
    seq(|fs|, i requires 0 <= i < |fs| => fs[i].id)
  }

  /** No two entries share an identifier. */
  predicate UniqueIds(fs: seq<Friend>)
  {
    forall i, j :: 0 <= i < j < |fs| ==> fs[i].id != fs[j].id
  }

  /** How many entries carry identifier `id`. */
  function Occurrences(fs: seq<Friend>, id: Id): nat
  {
    if fs == [] then 0
    else (if fs[0].id == id then 1 else 0) + Occurrences(fs[1..], id)
  }

  /** The sum of all balances: what the user is owed over the whole list. */
  function TotalBalance(fs: seq<Friend>): int
  {
    if fs == [] then 0 else fs[0].balance + TotalBalance(fs[1..])
  }

  /** The balance update of a bill split: every entry whose id is `id` has `delta`
      added to its balance, every other entry is kept as it is, and the order
      and length of the list do not change. */
  function ApplyDelta(fs: seq<Friend>, id: Id, delta: int): (r: seq<Friend>)
    ensures |r| == |fs|
    ensures forall i :: 0 <= i < |fs| ==> r[i] == fs[i].(balance := r[i].balance)
    ensures forall i :: 0 <= i < |fs| && fs[i].id != id ==> r[i] == fs[i]
    ensures forall i :: 0 <= i < |fs| && fs[i].id == id ==> r[i].balance == fs[i].balance + delta
  {
    if fs == [] then []
    else
      var head := if fs[0].id == id then fs[0].(balance := fs[0].balance + delta) else fs[0];
      [head] + ApplyDelta(fs[1..], id, delta)
  }

  /** `after` starts with the entries of `before`, in the same order, each one
      unchanged apart from its balance. */
  predicate KeptApartFromBalance(before: seq<Friend>, after: seq<Friend>)
  {
    |before| <= |after| &&
    forall i :: 0 <= i < |before| ==> after[i] == before[i].(balance := after[i].balance)
  }

  lemma KeptApartFromBalanceTransitive(a: seq<Friend>, b: seq<Friend>, c: seq<Friend>)
    requires KeptApartFromBalance(a, b) && KeptApartFromBalance(b, c)
    ensures KeptApartFromBalance(a, c)
  {
    forall i | 0 <= i < |a| ensures c[i] == a[i].(balance := c[i].balance) {
      assert b[i] == a[i].(balance := b[i].balance);
    }
  }

  /** Applying a split never changes the identifiers, so it keeps them unique. */
  lemma ApplyDeltaKeepsIds(fs: seq<Friend>, id: Id, delta: int)
    ensures Ids(ApplyDelta(fs, id, delta)) == Ids(fs)
    ensures UniqueIds(ApplyDelta(fs, id, delta)) <==> UniqueIds(fs)
  {
    var r := ApplyDelta(fs, id, delta);
    assert forall i :: 0 <= i < |fs| ==> r[i].id == fs[i].id;
  }

  /** A split followed by the opposite split restores the list. */
  lemma ApplyDeltaUndo(fs: seq<Friend>, id: Id, delta: int)
    ensures ApplyDelta(ApplyDelta(fs, id, delta), id, -delta) == fs
  {
    var r := ApplyDelta(ApplyDelta(fs, id, delta), id, -delta);
    assert forall i :: 0 <= i < |fs| ==> r[i] == fs[i];
  }

  /** `r` is `fs` with the balance of entry `k` raised by `delta`. */
  predicate SingleUpdate(fs: seq<Friend>, r: seq<Friend>, k: nat, delta: int)
    requires k < |fs|
  {
    r == fs[k := fs[k].(balance := fs[k].balance + delta)]
  }

  /** With unique identifiers, splitting with the friend at index `k` rewrites
      that one entry's balance and nothing else. */
  lemma ApplyDeltaSingle(fs: seq<Friend>, k: nat, delta: int)
    requires UniqueIds(fs) && k < |fs|
    ensures SingleUpdate(fs, ApplyDelta(fs, fs[k].id, delta), k, delta)
  {
    var r := ApplyDelta(fs, fs[k].id, delta);
    var s := fs[k := fs[k].(balance := fs[k].balance + delta)];
    forall i | 0 <= i < |fs| ensures r[i] == s[i] {
      if i != k {
        assert fs[i].id != fs[k].id;
      }
    }
  }

  /** The total balance moves by `delta` once for every entry carrying `id`. */
  lemma {:induction false} ApplyDeltaTotal(fs: seq<Friend>, id: Id, delta: int)
    ensures TotalBalance(ApplyDelta(fs, id, delta)) ==
      TotalBalance(fs) + delta * Occurrences(fs, id)
  {
    if fs != [] {
      var r := ApplyDelta(fs, id, delta);
      var n := Occurrences(fs[1..], id);
      assert r[1..] == ApplyDelta(fs[1..], id, delta);
      ApplyDeltaTotal(fs[1..], id, delta);
      assert TotalBalance(r) == r[0].balance + TotalBalance(fs[1..]) + delta * n;
      if fs[0].id == id {
        assert Occurrences(fs, id) == n + 1;
        assert delta * (n + 1) == delta * n + delta;
      } else {
        assert Occurrences(fs, id) == n;
      }
    }
  }

  /** An identifier that is absent occurs nowhere. */
  lemma {:induction false} OccurrencesAbsent(fs: seq<Friend>, id: Id)
    requires id !in Ids(fs)
    ensures Occurrences(fs, id) == 0
  {
    if fs != [] {
      assert Ids(fs[1..]) == Ids(fs)[1..];
      OccurrencesAbsent(fs[1..], id);
    }
  }

  /** In a registry with unique identifiers, a member's identifier occurs once. */
  lemma {:induction false} OccurrencesOfMember(fs: seq<Friend>, f: Friend)
    requires UniqueIds(fs) && f in fs
    ensures Occurrences(fs, f.id) == 1
  {
    if fs[0] == f {
      forall i | 0 <= i < |fs| - 1 ensures fs[1..][i].id != f.id {
        assert fs[i + 1].id != fs[0].id;
      }
      OccurrencesAbsent(fs[1..], f.id);
    } else {
      var j :| 0 <= j < |fs| && fs[j] == f;
      assert fs[0].id != f.id;
      assert fs[1..][j - 1] == f;
      OccurrencesOfMember(fs[1..], f);
    }
  }

  /** A split with a friend of a registry whose identifiers are unique rewrites
      that friend's entry alone, keeps the identifiers unique and moves the total
      balance by exactly the split amount. */
  lemma SplitOfMember(fs: seq<Friend>, f: Friend, delta: int)
    requires UniqueIds(fs) && f in fs
    ensures UniqueIds(ApplyDelta(fs, f.id, delta))
    ensures exists k ::
              0 <= k < |fs| && fs[k] == f && SingleUpdate(fs, ApplyDelta(fs, f.id, delta), k, delta)
    ensures TotalBalance(ApplyDelta(fs, f.id, delta)) == TotalBalance(fs) + delta
  {
    var k :| 0 <= k < |fs| && fs[k] == f;
    ApplyDeltaSingle(fs, k, delta);
    OccurrencesOfMember(fs, f);
    ApplyDeltaTotal(fs, f.id, delta);
    ApplyDeltaKeepsIds(fs, f.id, delta);
  }

  /** Appending keeps identifiers unique exactly when the new one is fresh. */
  lemma AppendUnique(fs: seq<Friend>, f: Friend)
    ensures Ids(fs + [f]) == Ids(fs) + [f.id]
    ensures UniqueIds(fs + [f]) <==> UniqueIds(fs) && f.id !in Ids(fs)
  {
    var r := fs + [f];
    if UniqueIds(r) {
      forall i | 0 <= i < |fs| ensures Ids(fs)[i] != f.id {
        assert r[i].id != r[|fs|].id;
      }
      forall i, j | 0 <= i < j < |fs| ensures fs[i].id != fs[j].id {
        assert r[i].id != r[j].id;
      }
    }
    if UniqueIds(fs) && f.id !in Ids(fs) {
      forall i, j | 0 <= i < j < |r| ensures r[i].id != r[j].id {
        if j == |fs| {
          assert Ids(fs)[i] == r[i].id;
        }
      }
    }
  }

  /** What a list row says about a friend's balance. */
  datatype Standing =
    | YouOwe(amount: nat)   // shown in red: "you owe <name> $<amount>"
    | OwesYou(amount: nat)  // shown in green: "<name> owes you $<amount>"
    | Even                  // "You and <name> are even"

  /** Every balance falls into exactly one of the three cases, and a debt in
      either direction is shown as the positive magnitude of the balance. */
  function Classify(balance: int): (s: Standing)
    ensures s.YouOwe? <==> balance < 0
    ensures s.OwesYou? <==> balance > 0
    ensures s.Even? <==> balance == 0
    ensures !s.Even? ==> s.amount > 0 && (s.amount == balance || s.amount == -balance)
  {
    if balance < 0 then YouOwe(-balance)
    else if balance > 0 then OwesYou(balance)
    else Even
  }

  /** Whether a row is drawn as the selected one (its button reads "close"). */
  function IsSelected(selected: Option<Friend>, f: Friend): (shown: bool)
    ensures selected.None? ==> !shown
    ensures selected == Some(f) ==> shown
    ensures shown <==> selected.Some? && selected.value.id == f.id
  {
    selected.Some? && selected.value.id == f.id
  }

  /** The seed list starts with unique identifiers and shows one friend of each
      standing. */
  lemma InitialFriendsWellFormed()
    ensures UniqueIds(InitialFriends)
    ensures Classify(InitialFriends[0].balance) == YouOwe(7)
    ensures Classify(InitialFriends[1].balance) == OwesYou(20)
    ensures Classify(InitialFriends[2].balance) == Even
  {
  }
}
