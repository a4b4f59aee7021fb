/** Removing the admin from a list of receivers in place, while ranging over the
    same backing array. */
module Connections {
  import opened Quizzes

  datatype Connection = Connection(userId: UserId, role: Role)

  /** The list without its admins, in order. */
  function WithoutAdmins(s: seq<Connection>): seq<Connection> {
    if s == [] then []
    else if s[0].role.Admin? then WithoutAdmins(s[1..])
    else [s[0]] + WithoutAdmins(s[1..])
  }

  function Admins(s: seq<Connection>): nat {
    if s == [] then 0 else Admins(s[1..]) + if s[0].role.Admin? then 1 else 0
  }

  predicate AdjacentAdmins(s: seq<Connection>) {
    exists i :: 0 <= i < |s| - 1 && s[i].role.Admin? && s[i + 1].role.Admin?
  }

  predicate EndsInAdmin(s: seq<Connection>) {
    s != [] && s[|s| - 1].role.Admin?
  }

  predicate AdminIn(s: seq<Connection>, n: int) {
    exists k :: 0 <= k < n && k < |s| && s[k].role.Admin?
  }

  /** The last connection is an admin, and not the only one. */
  predicate LastOfSeveral(s: seq<Connection>) {
    EndsInAdmin(s) && AdminIn(s, |s| - 1)
  }

  /** What the loop really keeps: the element after a removed admin slides into
      the place just visited and is never looked at. */
  function Swept(s: seq<Connection>): seq<Connection> {
    if s == [] then []
    else if !s[0].role.Admin? then [s[0]] + Swept(s[1..])
    else if |s| == 1 then []
    else [s[1]] + Swept(s[2..])
  }

  /** Where the loop stands at index i after r removals: s is the original list
      and a the backing array. */
  ghost predicate Kept(s: seq<Connection>, a: seq<Connection>, i: nat, r: nat) {
    && |a| == |s| && i <= |s| && r <= |s|
    && (i + r <= |s| ==> a[i..|s| - r] == s[i + r..] && Swept(s) == a[..i] + Swept(s[i + r..]))
    && (i + r > |s| ==> Swept(s) == a[..|s| - r])
  }

  /** The places beyond the cut all repeat the last element. */
  ghost predicate Stale(s: seq<Connection>, a: seq<Connection>, r: nat) {
    |a| == |s| && (r > 0 ==> forall k :: |s| - r <= k < |s| && 0 <= k ==> a[k] == s[|s| - 1])
  }

  ghost predicate Met(s: seq<Connection>, i: nat, r: nat) {
    && (r == 0 ==> !AdminIn(s, i))
    && (r > 0 && i < |s| ==> AdminIn(s, |s| - 1))
    && (i >= |s| && EndsInAdmin(s) ==> !AdminIn(s, |s| - 1))
  }

  ghost predicate Sweeping(s: seq<Connection>, a: seq<Connection>, i: nat, r: nat) {
    Kept(s, a, i, r) && Stale(s, a, r) && Met(s, i, r)
  }

  /** append(receivers[:i], receivers[i+1:]...) on the shared array. */
  function Shifted(a: seq<Connection>, i: nat, len: nat): seq<Connection>
    requires i < len <= |a|
  {
    a[..i] + a[i + 1..len] + a[len - 1..]
  }

  /** What the loop reads at i: the next original element, or a stale copy of the
      last one. */
  lemma Reads(s: seq<Connection>, a: seq<Connection>, i: nat, r: nat)
    requires Kept(s, a, i, r) && Stale(s, a, r) && i < |s|
    ensures a[i] == if i + r < |s| then s[i + r] else s[|s| - 1]
    ensures i + r < |s| ==> a[|s| - r - 1] == s[|s| - 1]
    ensures i + r >= |s| ==> r > 0
  {
    if i + r < |s| {
      assert a[i] == a[i..|s| - r][0];
      assert a[|s| - r - 1] == a[i..|s| - r][|s| - r - 1 - i];
    }
  }

  lemma KeepKeeps(s: seq<Connection>, a: seq<Connection>, i: nat, r: nat)
    requires Kept(s, a, i, r) && i < |s| && (i + r < |s| ==> a[i] == s[i + r] && !a[i].role.Admin?)
    ensures Kept(s, a, i + 1, r)
  {
    if i + r < |s| {
      var rest := s[i + r..];
      assert rest[1..] == s[i + 1 + r..];
      assert a[i + 1..|s| - r] == a[i..|s| - r][1..];
      assert Swept(rest) == [a[i]] + Swept(rest[1..]);
      assert a[..i + 1] + Swept(rest[1..]) == a[..i] + Swept(rest);
    } else if i + r == |s| {
      assert Swept(s[i + r..]) == [];
      assert a[..i] + [] == a[..|s| - r];
    }
  }

  lemma RemoveKeeps(s: seq<Connection>, a: seq<Connection>, i: nat, r: nat)
    requires Kept(s, a, i, r) && i + r < |s| && a[i] == s[i + r] && a[i].role.Admin?
    ensures Kept(s, Shifted(a, i, |s| - r), i + 1, r + 1)
  {
    var b := Shifted(a, i, |s| - r);
    var rest := s[i + r..];
    if |rest| >= 2 {
      assert a[i + 1] == a[i..|s| - r][1] == rest[1];
      assert b[..i + 1] == a[..i] + [rest[1]];
      assert rest[2..] == s[i + 1 + (r + 1)..];
      assert b[i + 1..|s| - (r + 1)] == a[i..|s| - r][2..];
      assert Swept(rest) == [rest[1]] + Swept(rest[2..]);
      assert b[..i + 1] + Swept(rest[2..]) == a[..i] + Swept(rest);
    } else {
      assert b[..|s| - (r + 1)] == a[..i];
      assert Swept(rest) == [];
      assert a[..i] + [] == a[..i];
    }
  }

  lemma KeepStep(s: seq<Connection>, a: seq<Connection>, i: nat, r: nat)
    requires Sweeping(s, a, i, r) && i < |s| && !a[i].role.Admin?
    ensures Sweeping(s, a, i + 1, r)
  {
    hide Kept;
    Reads(s, a, i, r);
    KeepKeeps(s, a, i, r);
  }

  lemma RemoveStep(s: seq<Connection>, a: seq<Connection>, i: nat, r: nat)
    requires Sweeping(s, a, i, r) && i < |s| && a[i].role.Admin?
    ensures i + r < |s| ==> Sweeping(s, Shifted(a, i, |s| - r), i + 1, r + 1)
    ensures i + r >= |s| ==> LastOfSeveral(s)
  {
    hide Kept;
    Reads(s, a, i, r);
    if i + r < |s| {
      RemoveKeeps(s, a, i, r);
      assert s[i + r].role.Admin?;
    }
  }

  lemma SweepStarts(s: seq<Connection>)
    ensures Sweeping(s, s, 0, 0)
  {
    assert s[0..|s|] == s[0..] == s;
    assert s[..0] + Swept(s[0..]) == Swept(s);
  }

  method CutOut(receivers: array<Connection>, i: nat, len: nat)
    requires i < len <= receivers.Length
    modifies receivers
    ensures receivers[..] == Shifted(old(receivers[..]), i, len)
  {
    forall k | i <= k < len - 1 {
      receivers[k] := receivers[k + 1];
    }
  }

  lemma VisitStep(s: seq<Connection>, a: seq<Connection>, i: nat, len: nat)
    requires i < |a| && len <= |a| && Sweeping(s, a, i, |a| - len)
    ensures !a[i].role.Admin? ==> Sweeping(s, a, i + 1, |a| - len)
    ensures a[i].role.Admin? && i < len ==> Sweeping(s, Shifted(a, i, len), i + 1, |a| - (len - 1))
    ensures a[i].role.Admin? && i >= len ==> LastOfSeveral(s)
  {
    hide *;
    SweepingLength(s, a, i, |a| - len);
    if a[i].role.Admin? {
      RemoveStep(s, a, i, |a| - len);
    } else {
      KeepStep(s, a, i, |a| - len);
    }
  }

  /** One iteration. The slice expression receivers[i+1:] panics when i + 1
      exceeds len, the length the slice has been cut down to. */
  method Visit(receivers: array<Connection>, i: nat, len: nat, ghost s: seq<Connection>)
    returns (len': nat, panicked: bool)
    requires i < receivers.Length && len <= receivers.Length
    requires Sweeping(s, receivers[..], i, receivers.Length - len)
    modifies receivers
    ensures panicked ==> LastOfSeveral(s)
    ensures !panicked ==> len' <= receivers.Length && Sweeping(s, receivers[..], i + 1, receivers.Length - len')
  {
    hide *;
    VisitStep(s, receivers[..], i, len);
    len', panicked := len, false;
    if receivers[i].role.Admin? {
      if i + 1 > len {
        panicked := true;
      } else {
        CutOut(receivers, i, len);
        len' := len - 1;
      }
    }
  }

  lemma SweepingLength(s: seq<Connection>, a: seq<Connection>, i: nat, r: nat)
    requires Sweeping(s, a, i, r)
    ensures |a| == |s|
  {
  }

  /** The loop of BroadcastToSession: it ranges over the original slice header
      while the receivers slice is cut down on the same array. */
  method RemoveAdmins(receivers: array<Connection>) returns (len: nat, panicked: bool)
    modifies receivers
    ensures panicked <==> LastOfSeveral(old(receivers[..]))
    ensures !panicked ==> len <= receivers.Length && receivers[..len] == Swept(old(receivers[..]))
  {
    ghost var s := receivers[..];
    SweepStarts(s);
    hide *;
    len := receivers.Length;
    for i := 0 to receivers.Length
      invariant len <= receivers.Length && Sweeping(s, receivers[..], i, receivers.Length - len)
    {
      len, panicked := Visit(receivers, i, len, s);
      if panicked {
        return;
      }
    }
    SweepEnds(s, receivers[..], receivers.Length - len);
    assert receivers[..len] == receivers[..][..len];
    panicked := false;
  }

  lemma SweepEnds(s: seq<Connection>, a: seq<Connection>, r: nat)
    requires Sweeping(s, a, |s|, r)
    ensures a[..|s| - r] == Swept(s)
    ensures !LastOfSeveral(s)
  {
    if r == 0 {
      assert a[..|s|] + Swept(s[|s|..]) == a[..|s|];
    }
  }

  lemma {:induction false} AdminsCounts(s: seq<Connection>, n: nat)
    requires n == |s| - 1
    ensures LastOfSeveral(s) <==> EndsInAdmin(s) && Admins(s) >= 2
    decreases |s|
  {
    var t := s[1..];
    if t != [] {
      AdminsCounts(t, n - 1);
      assert EndsInAdmin(s) <==> EndsInAdmin(t);
      AdminsPositive(t);
      if AdminIn(s, n) {
        var k :| 0 <= k < n && k < |s| && s[k].role.Admin?;
        assert k > 0 ==> t[k - 1].role.Admin?;
      }
      if AdminIn(t, n - 1) {
        var k :| 0 <= k < n - 1 && k < |t| && t[k].role.Admin?;
        assert s[k + 1].role.Admin?;
      }
    }
  }

  lemma {:induction false} AdminsPositive(s: seq<Connection>)
    ensures Admins(s) >= 1 <==> AdminIn(s, |s|)
    decreases |s|
  {
    if s != [] {
      var t := s[1..];
      AdminsPositive(t);
      if AdminIn(t, |t|) {
        var k :| 0 <= k < |t| && t[k].role.Admin?;
        assert s[k + 1].role.Admin?;
      }
      if AdminIn(s, |s|) && !s[0].role.Admin? {
        var k :| 0 <= k < |s| && s[k].role.Admin?;
        assert t[k - 1].role.Admin?;
      }
    }
  }

  lemma {:induction false} WithoutAdminsHasNone(s: seq<Connection>)
    ensures forall c :: c in WithoutAdmins(s) ==> !c.role.Admin?
    decreases |s|
  {
    if s != [] {
      WithoutAdminsHasNone(s[1..]);
    }
  }

  lemma AdjacentInTail(s: seq<Connection>)
    requires s != []
    ensures AdjacentAdmins(s) <==>
              AdjacentAdmins(s[1..]) || (|s| >= 2 && s[0].role.Admin? && s[1].role.Admin?)
  {
    var t := s[1..];
    if AdjacentAdmins(s) {
      var i :| 0 <= i < |s| - 1 && s[i].role.Admin? && s[i + 1].role.Admin?;
      assert i > 0 ==> t[i - 1].role.Admin? && t[i - 1 + 1].role.Admin?;
    }
    if AdjacentAdmins(t) {
      var i :| 0 <= i < |t| - 1 && t[i].role.Admin? && t[i + 1].role.Admin?;
      assert s[i + 1].role.Admin? && s[i + 1 + 1].role.Admin?;
    }
  }

  /** The sweep misses an admin exactly when two stand side by side. */
  lemma {:induction false} SweptMisses(s: seq<Connection>)
    ensures Swept(s) == WithoutAdmins(s) <==> !AdjacentAdmins(s)
    ensures AdjacentAdmins(s) ==> exists c :: c in Swept(s) && c.role.Admin?
    decreases |s|
  {
    WithoutAdminsHasNone(s);
    if s != [] {
      AdjacentInTail(s);
      if !s[0].role.Admin? {
        SweptMisses(s[1..]);
        if AdjacentAdmins(s) {
          var c :| c in Swept(s[1..]) && c.role.Admin?;
          assert c in Swept(s);
        }
      } else if |s| >= 2 {
        AdjacentInTail(s[1..]);
        assert s[1..][1..] == s[2..];
        SweptMisses(s[2..]);
        if s[1].role.Admin? {
          assert s[1] in Swept(s);
        } else if AdjacentAdmins(s) {
          var c :| c in Swept(s[2..]) && c.role.Admin?;
          assert c in Swept(s);
        }
      }
    }
  }

  /** A broadcast that leaves out the admin reaches exactly the others, in order,
      if and only if there is at most one admin, or no two stand side by side and
      none stands last. */
  lemma RemovalIsRight(s: seq<Connection>)
    ensures !LastOfSeveral(s) && Swept(s) == WithoutAdmins(s) <==>
            Admins(s) <= 1 || (!AdjacentAdmins(s) && !EndsInAdmin(s))
  {
    SweptMisses(s);
    if s != [] {
      AdminsCounts(s, |s| - 1);
      if AdjacentAdmins(s) {
        TwoAdmins(s);
      }
    }
  }

  lemma {:induction false} TwoAdmins(s: seq<Connection>)
    requires AdjacentAdmins(s)
    ensures Admins(s) >= 2
    decreases |s|
  {
    AdjacentInTail(s);
    if AdjacentAdmins(s[1..]) {
      TwoAdmins(s[1..]);
    } else {
      assert s[1..][0].role.Admin?;
    }
  }
}
