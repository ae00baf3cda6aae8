/** The connection registry `clients`, a JavaScript Set: a sequence without
    duplicates, in insertion order (the order in which Set.forEach visits it). */
module Registry {
  import opened Protocol

  ghost predicate Distinct<T>(s: seq<T>) {
    forall i, j :: 0 <= i < j < |s| ==> s[i] != s[j]
  }

  /** `r` is `s` with some elements dropped and the rest in their order. */
  ghost predicate Subsequence(r: seq<ClientId>, s: seq<ClientId>) {
    if s == [] then r == []
    else (r != [] && r[0] == s[0] && Subsequence(r[1..], s[1..])) || Subsequence(r, s[1..])
  }

  /** Set.prototype.add: appends `c` unless it is already a member. */
  function Added(s: seq<ClientId>, c: ClientId): (r: seq<ClientId>)
    ensures forall x :: x in r <==> x in s || x == c
    ensures Distinct(s) ==> Distinct(r)
    ensures |r| == if c in s then |s| else |s| + 1
    ensures r[..|s|] == s
  {
    if c in s then s else s + [c]
  }

  /** Set.prototype.delete: drops `c`, keeping the other members in order. */
  function Removed(s: seq<ClientId>, c: ClientId): (r: seq<ClientId>)
    ensures forall x :: x in r <==> x in s && x != c
    ensures Distinct(s) ==> Distinct(r)
    ensures |r| <= |s|
    ensures Distinct(s) && c in s ==> |r| == |s| - 1
    ensures c !in s ==> r == s
    ensures Subsequence(r, s)
  {
    if s == [] then []
    else if s[0] == c then Removed(s[1..], c)
    else
      var rest := Removed(s[1..], c);
      assert Distinct(s) ==> Distinct([s[0]] + rest) by {
        if Distinct(s) {
          assert s[0] !in s[1..] by {
            forall i | 1 <= i < |s| ensures s[i] != s[0] { }
          }
          DistinctPrepend(s[0], rest);
        }
      }
      assert ([s[0]] + rest)[1..] == rest;
      [s[0]] + rest
  }

  /** Putting a non-member in front keeps a sequence duplicate-free. */
  lemma DistinctPrepend(x: ClientId, t: seq<ClientId>)
    requires x !in t && Distinct(t)
    ensures Distinct([x] + t)
  {
    var u := [x] + t;
    forall i, j | 0 <= i < j < |u| ensures u[i] != u[j] {
      if i > 0 {
        assert u[i] == t[i - 1] && u[j] == t[j - 1];
      } else {
        assert u[j] == t[j - 1];
      }
    }
  }
}
