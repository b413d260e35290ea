/**
 * The pure list logic of the favourites view: the record a country is held
 * as, the copy made when the response arrives, the toggle keyed by name, and
 * the two filters that split the list into liked and not-liked records.
 */
module Countries {

  /** A country as the component holds it: `name` is `name.common`, `flag` is `flags.png`. */
  datatype Country = Country(name: string, capital: string, flag: string, like: bool)

  /** Two records agree on every field except `like`. */
  predicate SameRecord(a: Country, b: Country)
  {
    a.name == b.name && a.capital == b.capital && a.flag == b.flag
  }

  // ---------------------------------------------------------------------
  // Load: every record of the response is copied with `like` set to false.
  // ---------------------------------------------------------------------

  function InitLoad(response: seq<Country>): (r: seq<Country>)
    ensures |r| == |response|
    ensures forall i :: 0 <= i < |r| ==> SameRecord(r[i], response[i]) && !r[i].like
  {
    if response == [] then []
    else [response[0].(like := false)] + InitLoad(response[1..])
  }

  // ---------------------------------------------------------------------
  // Toggle: flip `like` on every record whose name equals the argument.
  // ---------------------------------------------------------------------

  function Toggle(cs: seq<Country>, name: string): (r: seq<Country>)
    ensures |r| == |cs|
    ensures forall i :: 0 <= i < |cs| ==> SameRecord(r[i], cs[i])
    ensures forall i :: 0 <= i < |cs| ==> (r[i].like != cs[i].like <==> cs[i].name == name)
    ensures forall i :: 0 <= i < |cs| && cs[i].name != name ==> r[i] == cs[i]
  {
    if cs == [] then []
    else
      var c := cs[0];
      [if c.name == name then c.(like := !c.like) else c] + Toggle(cs[1..], name)
  }

  /** A name no record carries leaves the list as it was. */
  lemma ToggleNoMatch(cs: seq<Country>, name: string)
    requires forall i :: 0 <= i < |cs| ==> cs[i].name != name
    ensures Toggle(cs, name) == cs
  {
  }

  /** Toggling the same name twice in a row is the identity. */
  lemma ToggleInvolutive(cs: seq<Country>, name: string)
    ensures Toggle(Toggle(cs, name), name) == cs
  {
  }

  /** Toggles of two names commute. */
  lemma ToggleCommutes(cs: seq<Country>, a: string, b: string)
    ensures Toggle(Toggle(cs, a), b) == Toggle(Toggle(cs, b), a)
  {
  }

  // ---------------------------------------------------------------------
  // The two order-preserving filters the view renders.
  // ---------------------------------------------------------------------

  /** The records whose `like` equals `liked`, in their original order. */
  function Keep(cs: seq<Country>, liked: bool): (r: seq<Country>)
    ensures |r| <= |cs|
    ensures forall k :: 0 <= k < |r| ==> r[k].like == liked
  {
    if cs == [] then []
    else (if cs[0].like == liked then [cs[0]] else []) + Keep(cs[1..], liked)
  }

  /** A record is kept exactly when it is in the list and its `like` equals `liked`. */
  lemma {:induction false} KeepMembers(cs: seq<Country>, liked: bool, c: Country)
    ensures c in Keep(cs, liked) <==> c in cs && c.like == liked
  {
    if cs != [] {
      KeepMembers(cs[1..], liked, c);
      assert cs == [cs[0]] + cs[1..];
    }
  }

  /** The "Favorite Countries" grid. */
  function Liked(cs: seq<Country>): (r: seq<Country>)
    ensures |r| <= |cs|
    ensures forall k :: 0 <= k < |r| ==> r[k].like
  {
    Keep(cs, true)
  }

  /** The "Countries" grid. */
  function Others(cs: seq<Country>): (r: seq<Country>)
    ensures |r| <= |cs|
    ensures forall k :: 0 <= k < |r| ==> !r[k].like
  {
    Keep(cs, false)
  }

  /** The positions, offset by `from`, of the records whose `like` equals `liked`. */
  function Positions(cs: seq<Country>, liked: bool, from: nat): (idx: seq<nat>)
  {
    if cs == [] then []
    else (if cs[0].like == liked then [from] else []) + Positions(cs[1..], liked, from + 1)
  }

  /** The positions lie inside the list, rise strictly, and are exactly those whose `like` equals `liked`. */
  lemma {:induction false} PositionsExact(cs: seq<Country>, liked: bool, from: nat)
    ensures var idx := Positions(cs, liked, from);
      && (forall k :: 0 <= k < |idx| ==> from <= idx[k] < from + |cs|)
      && (forall j, k :: 0 <= j < k < |idx| ==> idx[j] < idx[k])
      && (forall i :: 0 <= i < |cs| ==> (from + i in idx <==> cs[i].like == liked))
  {
    if cs != [] {
      var tail := Positions(cs[1..], liked, from + 1);
      PositionsExact(cs[1..], liked, from + 1);
      var head: seq<nat> := if cs[0].like == liked then [from] else [];
      assert Positions(cs, liked, from) == head + tail;
      forall i | 0 <= i < |cs|
        ensures from + i in head + tail <==> cs[i].like == liked
      {
        if i > 0 {
          assert cs[1..][i - 1] == cs[i];
          assert from + i !in head;
        } else {
          assert from !in tail;
        }
      }
    }
  }

  /** `sub` is `s` read at the strictly increasing positions `idx`. */
  ghost predicate Embedding(sub: seq<Country>, s: seq<Country>, idx: seq<nat>)
  {
    && |idx| == |sub|
    && (forall k :: 0 <= k < |idx| ==> idx[k] < |s| && sub[k] == s[idx[k]])
    && (forall j, k :: 0 <= j < k < |idx| ==> idx[j] < idx[k])
  }

  lemma {:induction false} PositionsLength(cs: seq<Country>, liked: bool, from: nat)
    ensures |Positions(cs, liked, from)| == |Keep(cs, liked)|
  {
    if cs != [] {
      PositionsLength(cs[1..], liked, from + 1);
    }
  }

  /** The `k`-th kept record is the record at the `k`-th position. */
  lemma {:induction false} KeepAt(cs: seq<Country>, liked: bool, from: nat, k: nat)
    requires k < |Keep(cs, liked)|
    ensures k < |Positions(cs, liked, from)|
    ensures from <= Positions(cs, liked, from)[k] < from + |cs|
    ensures Keep(cs, liked)[k] == cs[Positions(cs, liked, from)[k] - from]
  {
    PositionsLength(cs, liked, from);
    var tail := Positions(cs[1..], liked, from + 1);
    if cs[0].like == liked {
      assert Positions(cs, liked, from) == [from] + tail;
      assert Keep(cs, liked) == [cs[0]] + Keep(cs[1..], liked);
      if k > 0 {
        KeepAt(cs[1..], liked, from + 1, k - 1);
      }
    } else {
      assert Positions(cs, liked, from) == tail;
      assert Keep(cs, liked) == Keep(cs[1..], liked);
      KeepAt(cs[1..], liked, from + 1, k);
    }
  }

  /**
   * Each filter is a subsequence of the list, taken at exactly the positions
   * whose `like` equals `liked`, in increasing order.
   */
  lemma KeepIsSubsequence(cs: seq<Country>, liked: bool)
    ensures Embedding(Keep(cs, liked), cs, Positions(cs, liked, 0))
    ensures forall i :: 0 <= i < |cs| ==> (i in Positions(cs, liked, 0) <==> cs[i].like == liked)
  {
    PositionsLength(cs, liked, 0);
    PositionsExact(cs, liked, 0);
    forall k | 0 <= k < |Keep(cs, liked)|
      ensures Keep(cs, liked)[k] == cs[Positions(cs, liked, 0)[k]]
    {
      KeepAt(cs, liked, 0, k);
    }
  }

  /** The two grids together hold every record of the list exactly as often as the list does. */
  lemma {:induction false} PartitionMultiset(cs: seq<Country>)
    ensures multiset(Liked(cs)) + multiset(Others(cs)) == multiset(cs)
  {
    if cs != [] {
      PartitionMultiset(cs[1..]);
      assert cs == [cs[0]] + cs[1..];
    }
  }

  /** The lengths of the two grids add up to the length of the list. */
  lemma PartitionLength(cs: seq<Country>)
    ensures |Liked(cs)| + |Others(cs)| == |cs|
  {
    PartitionMultiset(cs);
    assert |multiset(Liked(cs)) + multiset(Others(cs))| == |multiset(cs)|;
  }

  /** Every record of the list is in exactly one of the two grids. */
  lemma PartitionExactlyOne(cs: seq<Country>, c: Country)
    ensures c in cs <==> c in Liked(cs) || c in Others(cs)
    ensures !(c in Liked(cs) && c in Others(cs))
  {
    KeepMembers(cs, true, c);
    KeepMembers(cs, false, c);
  }

  /** Right after a load nothing is liked: the favourites grid is empty and the other grid is the whole list. */
  lemma {:induction false} InitLoadPartition(response: seq<Country>)
    ensures Liked(InitLoad(response)) == []
    ensures Others(InitLoad(response)) == InitLoad(response)
  {
    KeepAllOrNone(InitLoad(response), false);
  }

  lemma {:induction false} KeepAllOrNone(cs: seq<Country>, liked: bool)
    requires forall i :: 0 <= i < |cs| ==> cs[i].like == liked
    ensures Keep(cs, liked) == cs
    ensures Keep(cs, !liked) == []
  {
    if cs != [] {
      KeepAllOrNone(cs[1..], liked);
    }
  }

  /**
   * After toggling `name`, the favourites are the former favourites with
   * other names together with the former non-favourites named `name`.
   */
  lemma {:induction false} ToggleLikedMembers(cs: seq<Country>, name: string, c: Country)
    ensures c in Liked(Toggle(cs, name)) <==>
      (c.name != name && c in Liked(cs)) ||
      (c.name == name && c.like && c.(like := false) in Others(cs))
  {
    var t := Toggle(cs, name);
    KeepMembers(t, true, c);
    KeepMembers(cs, true, c);
    KeepMembers(cs, false, c.(like := false));
    if c in t && c.like {
      var i :| 0 <= i < |t| && t[i] == c;
      assert SameRecord(t[i], cs[i]);
      if c.name == name {
        assert cs[i] == c.(like := false);
      }
    }
    if c.name != name && c in cs && c.like {
      var i :| 0 <= i < |cs| && cs[i] == c;
      assert t[i] == c;
    }
    if c.name == name && c.like && c.(like := false) in cs {
      var i :| 0 <= i < |cs| && cs[i] == c.(like := false);
      assert SameRecord(t[i], c);
      assert t[i] == c;
    }
  }
}
