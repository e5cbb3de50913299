/**
 * The subscription registry: an ordered array of subscriptions keyed by
 * (channel name, user data). `add` is check-then-append, so a key is never
 * held twice; `find_all` and `find` look entries up by channel name alone;
 * `remove` deletes the entry with a given key and hands back the array.
 */
module Registry {
  import opened Wrappers
  import opened Entities

  /** The key an entry is registered under. */
  function Key(s: Subscription): (string, string)
  {
    (s.channel, s.userData)
  }

  /** No two entries share a key. */
  predicate UniqueKeys(s: seq<Subscription>)
  {
    forall i, j :: 0 <= i < j < |s| ==> Key(s[i]) != Key(s[j])
  }

  /** The keys registered in `s`. */
  function Keys(s: seq<Subscription>): (r: set<(string, string)>)
    ensures forall k :: k in r <==> exists i :: 0 <= i < |s| && Key(s[i]) == k
  {
    if s == [] then {}
    else
      var r := {Key(s[0])} + Keys(s[1..]);
      assert forall i :: 0 < i < |s| ==> s[i] == s[1..][i - 1];
      r
  }

  /** With unique keys, the registry holds one entry per key it holds. */
  lemma {:induction false} KeyCount(s: seq<Subscription>)
    ensures UniqueKeys(s) ==> |Keys(s)| == |s|
  {
    if s != [] && UniqueKeys(s) {
      var tail := s[1..];
      assert UniqueKeys(tail) by {
        forall a, b | 0 <= a < b < |tail| ensures Key(tail[a]) != Key(tail[b]) {
          assert tail[a] == s[a + 1] && tail[b] == s[b + 1];
        }
      }
      KeyCount(tail);
      assert Key(s[0]) !in Keys(tail) by {
        forall i | 0 <= i < |tail| ensures Key(tail[i]) != Key(s[0]) {
          assert tail[i] == s[i + 1];
        }
      }
      assert Keys(s) == {Key(s[0])} + Keys(tail);
    }
  }

  /** Entries with unique keys are distinct objects. */
  lemma UniqueEntriesDistinct(s: seq<Subscription>, i: nat)
    requires UniqueKeys(s) && i < |s|
    ensures forall j :: 0 <= j < |s| && j != i ==> s[j] != s[i]
  {
    forall j | 0 <= j < |s| && j != i ensures s[j] != s[i] {
      if j < i {
        assert Key(s[j]) != Key(s[i]);
      } else {
        assert Key(s[i]) != Key(s[j]);
      }
    }
  }

  /** Position of the first entry keyed (channel, userData), or |s| when there is none. */
  function IndexOfKey(s: seq<Subscription>, channel: string, userData: string): (i: nat)
    ensures i <= |s|
    ensures i < |s| ==> Key(s[i]) == (channel, userData)
    ensures forall j :: 0 <= j < i ==> Key(s[j]) != (channel, userData)
  {
    if s == [] then 0
    else if Key(s[0]) == (channel, userData) then 0
    else 1 + IndexOfKey(s[1..], channel, userData)
  }

  /** The first entry keyed (channel, userData), if any (Ruby's `detect`). */
  function Detect(s: seq<Subscription>, channel: string, userData: string): (r: Option<Subscription>)
    ensures r.None? <==> forall x :: x in s ==> Key(x) != (channel, userData)
    ensures r.Some? ==> r.value in s && r.value.channel == channel && r.value.userData == userData
  {
    var i := IndexOfKey(s, channel, userData);
    if i < |s| then Some(s[i]) else None
  }

  /** Position of the first entry on channel `name`, or |s| when there is none. */
  function IndexOfChannel(s: seq<Subscription>, name: string): (i: nat)
    ensures i <= |s|
    ensures i < |s| ==> s[i].channel == name
    ensures forall j :: 0 <= j < i ==> s[j].channel != name
  {
    if s == [] then 0
    else if s[0].channel == name then 0
    else 1 + IndexOfChannel(s[1..], name)
  }

  /** `find` (alias `[]`): the first entry on channel `name`, whatever its user data. */
  function Find(s: seq<Subscription>, name: string): (r: Option<Subscription>)
    ensures r.None? <==> forall x :: x in s ==> x.channel != name
    ensures r.Some? ==> exists i :: 0 <= i < |s| && s[i] == r.value && s[i].channel == name &&
                                    forall j :: 0 <= j < i ==> s[j].channel != name
  {
    var i := IndexOfChannel(s, name);
    if i < |s| then Some(s[i]) else None
  }

  /** `find_all`: the entries on channel `name`, in registry order. */
  function FindAll(s: seq<Subscription>, name: string): (r: seq<Subscription>)
    ensures |r| <= |s|
    ensures forall x :: x in r ==> x in s && x.channel == name
    ensures forall x :: x in s && x.channel == name ==> x in r
  {
    if s == [] then []
    else (if s[0].channel == name then [s[0]] else []) + FindAll(s[1..], name)
  }

  /** `find_all` keeps order: the matches of a concatenation are the matches of each part, in turn. */
  lemma {:induction false} FindAllAppend(s: seq<Subscription>, t: seq<Subscription>, name: string)
    ensures FindAll(s + t, name) == FindAll(s, name) + FindAll(t, name)
  {
    if s == [] {
      assert s + t == t;
    } else {
      assert (s + t)[0] == s[0];
      assert (s + t)[1..] == s[1..] + t;
      FindAllAppend(s[1..], t, name);
    }
  }

  /** `find_all` is empty exactly when no entry is on channel `name`. */
  lemma {:induction false} FindAllEmpty(s: seq<Subscription>, name: string)
    ensures FindAll(s, name) == [] <==> forall x :: x in s ==> x.channel != name
  {
    if s != [] {
      FindAllEmpty(s[1..], name);
      assert forall x :: x in s ==> x == s[0] || x in s[1..];
    }
  }

  /**
   * Ruby's `Array#delete(x)`: every element `==` to `x` removed, the rest in
   * order. A subscription's `==` is taken to be Ruby's default, object
   * identity, which is what `!=` on a class means here.
   */
  function Without(s: seq<Subscription>, x: Subscription): (r: seq<Subscription>)
    ensures |r| <= |s|
    ensures forall y :: y in r ==> y in s && y != x
    ensures forall y :: y in s && y != x ==> y in r
  {
    if s == [] then []
    else (if s[0] == x then [] else [s[0]]) + Without(s[1..], x)
  }

  /** Deleting an entry of a registry whose keys are unique removes exactly that position. */
  lemma {:induction false} WithoutAt(s: seq<Subscription>, i: nat)
    requires UniqueKeys(s) && i < |s|
    ensures Without(s, s[i]) == s[..i] + s[i + 1..]
  {
    var tail := s[1..];
    if i == 0 {
      assert s[0] !in tail by {
        forall k | 0 <= k < |tail| ensures tail[k] != s[0] {
          assert tail[k] == s[k + 1];
          assert Key(s[0]) != Key(s[k + 1]);
        }
      }
      WithoutAbsent(tail, s[0]);
    } else {
      assert UniqueKeys(tail) by {
        forall a, b | 0 <= a < b < |tail| ensures Key(tail[a]) != Key(tail[b]) {
          assert tail[a] == s[a + 1] && tail[b] == s[b + 1];
        }
      }
      assert tail[i - 1] == s[i];
      WithoutAt(tail, i - 1);
      assert s[0] != s[i] by { assert Key(s[0]) != Key(s[i]); }
      calc {
        Without(s, s[i]);
        [s[0]] + Without(tail, s[i]);
        [s[0]] + (tail[..i - 1] + tail[i..]);
        { assert [s[0]] + tail[..i - 1] == s[..i]; assert tail[i..] == s[i + 1..]; }
        s[..i] + s[i + 1..];
      }
    }
  }

  /** Deleting something that is not there changes nothing. */
  lemma {:induction false} WithoutAbsent(s: seq<Subscription>, x: Subscription)
    requires x !in s
    ensures Without(s, x) == s
  {
    if s != [] {
      WithoutAbsent(s[1..], x);
    }
  }

  /** Removing one position keeps the keys unique. */
  lemma DeletePreservesUnique(s: seq<Subscription>, i: nat)
    requires UniqueKeys(s) && i < |s|
    ensures UniqueKeys(s[..i] + s[i + 1..])
  {
    var t := s[..i] + s[i + 1..];
    forall a, b | 0 <= a < b < |t| ensures Key(t[a]) != Key(t[b]) {
      var a' := if a < i then a else a + 1;
      var b' := if b < i then b else b + 1;
      assert t[a] == s[a'] && t[b] == s[b'];
    }
  }

  /** A key absent from `s` is found at the end of `s + [n]` when `n` carries it. */
  lemma IndexOfKeyAppend(s: seq<Subscription>, n: Subscription)
    requires IndexOfKey(s, n.channel, n.userData) == |s|
    ensures IndexOfKey(s + [n], n.channel, n.userData) == |s|
  {
    var t := s + [n];
    var i := IndexOfKey(t, n.channel, n.userData);
    assert t[|s|] == n;
    assert forall j :: 0 <= j < |s| ==> t[j] == s[j];
  }

  /** With no entry on channel `name`, no entry has any key on it either. */
  lemma IndexOfChannelNone(s: seq<Subscription>, name: string, userData: string)
    requires IndexOfChannel(s, name) == |s|
    ensures IndexOfKey(s, name, userData) == |s|
  {
  }

  /** A channel absent from `s` is found at the end of `s + [n]` when `n` is on it. */
  lemma IndexOfChannelAppend(s: seq<Subscription>, n: Subscription)
    requires IndexOfChannel(s, n.channel) == |s|
    ensures IndexOfChannel(s + [n], n.channel) == |s|
  {
    var t := s + [n];
    assert t[|s|] == n;
    assert forall j :: 0 <= j < |s| ==> t[j] == s[j];
  }

  /** Adding a new key and removing it again gives back the registry it started from. */
  lemma RemoveAfterAdd(s: seq<Subscription>, n: Subscription)
    requires UniqueKeys(s) && IndexOfKey(s, n.channel, n.userData) == |s|
    ensures UniqueKeys(s + [n])
    ensures Without(s + [n], n) == s
  {
    var t := s + [n];
    assert t[|s|] == n;
    WithoutAt(t, |s|);
    assert t[..|s|] == s;
  }

  /** The registry object: its array of subscriptions, oldest first. */
  class Subscriptions {
    var entries: seq<Subscription>

    ghost predicate Valid()
      reads this
    {
      UniqueKeys(entries)
    }

    /** A new registry is empty. */
    constructor ()
      ensures Valid() && entries == []
    {
      entries := [];
    }

    /** `size`: in a valid registry, the number of distinct (channel, user data) pairs added and not removed. */
    function Size(): (n: nat)
      reads this
      ensures Valid() ==> n == |Keys(entries)|
    {
      KeyCount(entries);
      |entries|
    }

    /** `empty?` holds exactly when `size` is 0. */
    function IsEmpty(): (b: bool)
      reads this
      ensures b <==> Size() == 0
    {
      entries == []
    }

    /**
     * `add` (alias `<<`): the entry keyed (channel, userData). When there is
     * one already it is returned and nothing changes; otherwise a new,
     * unsubscribed entry with no callbacks is appended and returned.
     */
    method Add(channel: string, userData: string) returns (s: Subscription)
      requires Valid()
      modifies this
      ensures Valid()
      ensures s.channel == channel && s.userData == userData
      ensures var i := IndexOfKey(old(entries), channel, userData);
              i < |old(entries)| ==> entries == old(entries) && s == old(entries)[i]
      ensures IndexOfKey(old(entries), channel, userData) == |old(entries)| ==>
              entries == old(entries) + [s] && fresh(s) &&
              !s.subscribed && !s.global && s.callbacks == map[]
    {
      if Detect(entries, channel, userData).None? {
        var n := new Subscription(channel, userData);
        RemoveAfterAdd(entries, n);
        entries := entries + [n];
        IndexOfKeyAppend(old(entries), n);
      }
      s := Detect(entries, channel, userData).value;
    }

    /**
     * `remove`: deletes the entry keyed (channel, userData), if there is one,
     * and returns the whole array, not the removed entry.
     */
    method Remove(channel: string, userData: string) returns (r: seq<Subscription>)
      requires Valid()
      modifies this
      ensures Valid()
      ensures r == entries
      ensures var i := IndexOfKey(old(entries), channel, userData);
              if i < |old(entries)| then entries == old(entries)[..i] + old(entries)[i + 1..]
              else entries == old(entries)
    {
      var found := Detect(entries, channel, userData);
      if found.Some? {
        ghost var i := IndexOfKey(entries, channel, userData);
        WithoutAt(entries, i);
        DeletePreservesUnique(entries, i);
        entries := Without(entries, found.value);
      }
      r := entries;
    }
  }
}
