/** The quiz service's listing query: which quizzes a request selects, and that
    the join with group-by and having-count means "has all these tags". */
module QuizListing {
  import opened Options

  type Id = nat

  datatype QuizRow = QuizRow(id: Id, ownerId: Id, isPublic: bool)
  datatype TagRow = TagRow(id: nat, name: string)
  datatype Link = Link(quizId: Id, tagId: nat)

  datatype Tables = Tables(quizzes: seq<QuizRow>, tags: seq<TagRow>, links: seq<Link>)

  predicate Distinct<T(==)>(s: seq<T>) {
    forall i, j :: 0 <= i < j < |s| ==> s[i] != s[j]
  }

  /** The primary keys and the unique tag name of the schema. */
  predicate Keyed(t: Tables) {
    && (forall i, j :: 0 <= i < j < |t.quizzes| ==> t.quizzes[i].id != t.quizzes[j].id)
    && TagsKeyed(t.tags)
    && Distinct(t.links)
  }

  predicate TagsKeyed(tags: seq<TagRow>) {
    forall i, j :: 0 <= i < j < |tags| ==> tags[i].id != tags[j].id && tags[i].name != tags[j].name
  }

  // ---- filter modes ----

  datatype Mode = AllPublic | AllMine | MinePublic | MinePrivate | OtherPublic | VisibleToMe

  /** The query parameters of one request. */
  datatype Request = Request(requester: Option<Id>, public: Option<bool>, mine: Option<bool>, user: Option<Id>)

  function ResolveFilterMode(r: Request): Option<Mode> {
    if r.requester.None? then
      if r.public == Some(false) then None
      else if r.mine == Some(true) then None
      else if r.user.Some? then None
      else Some(AllPublic)
    else if r.mine == Some(true) then
      if r.user.Some? && r.user != r.requester then None
      else if r.public.None? then Some(AllMine)
      else if r.public == Some(false) then Some(MinePrivate)
      else Some(MinePublic)
    else if r.mine == Some(false) then
      if r.public == Some(false) then None
      else if r.user == r.requester then None
      else Some(OtherPublic)
    else if r.public.None? then Some(VisibleToMe)
    else if r.public == Some(false) then
      if r.user.Some? && r.user != r.requester then None
      else Some(MinePrivate)
    else Some(AllPublic)
  }

  /** Comparing a non-null column with an absent parameter is never true. */
  predicate Eq(column: Id, parameter: Option<Id>) {
    parameter == Some(column)
  }

  predicate InMode(mode: Mode, r: Request, q: QuizRow) {
    match mode
    case AllPublic => q.isPublic
    case AllMine => Eq(q.ownerId, r.requester)
    case MinePublic => Eq(q.ownerId, r.requester) && q.isPublic
    case MinePrivate => Eq(q.ownerId, r.requester) && !q.isPublic
    case OtherPublic => Eq(q.ownerId, r.user) && q.isPublic
    case VisibleToMe => Eq(q.ownerId, r.requester) || q.isPublic
  }

  /** The where clause, user_id filter included. */
  predicate Selected(mode: Mode, r: Request, q: QuizRow) {
    InMode(mode, r, q) && (r.user.Some? ==> Eq(q.ownerId, r.user))
  }

  /** What get_quiz_by_id would let the requester read. */
  predicate CanGet(q: QuizRow, requester: Option<Id>) {
    !(Some(q.ownerId) != requester && !q.isPublic)
  }

  /** What the parameters ask for, one by one, among the quizzes the requester may
      read. */
  predicate Wanted(r: Request, q: QuizRow) {
    && CanGet(q, r.requester)
    && (r.public.Some? ==> q.isPublic == r.public.value)
    && (r.mine.Some? ==> (Some(q.ownerId) == r.requester) == r.mine.value)
    && (r.user.Some? ==> q.ownerId == r.user.value)
  }

  /** An accepted request lists exactly what it asks for, except that mine=false
      without a user_id lists nothing at all. */
  lemma ListingIsWhatWasAsked(r: Request, q: QuizRow)
    requires ResolveFilterMode(r).Some?
    ensures Selected(ResolveFilterMode(r).value, r, q) <==>
              Wanted(r, q) && !(r.requester.Some? && r.mine == Some(false) && r.user.None?)
    ensures Selected(ResolveFilterMode(r).value, r, q) ==> CanGet(q, r.requester)
  {
  }

  /** A request is refused exactly when no quiz could match it, or when an
      anonymous one names a user. */
  lemma RefusedIsUnsatisfiable(r: Request)
    ensures ResolveFilterMode(r).None? <==>
              (forall q :: !Wanted(r, q)) || (r.requester.None? && r.user.Some?)
  {
    if ResolveFilterMode(r).Some? {
      var owner := if r.user.Some? then r.user.value
                   else if r.requester.Some? && r.mine != Some(false) then r.requester.value
                   else if r.requester.Some? then r.requester.value + 1
                   else 0;
      var isPublic := if r.public.Some? then r.public.value else r.mine != Some(true);
      assert Wanted(r, QuizRow(0, owner, isPublic));
    }
  }

  /** Without parameters the listing is all and only what the requester may read;
      own quizzes are the disjoint union of the public and the private ones. */
  lemma DefaultListsAccessible(requester: Option<Id>, q: QuizRow)
    ensures var r := Request(requester, None, None, None);
            ResolveFilterMode(r).Some? && (Selected(ResolveFilterMode(r).value, r, q) <==> CanGet(q, requester))
    ensures forall r: Request :: r.requester == requester && r.user.None? ==>
              && (Selected(AllMine, r, q) <==> Selected(MinePublic, r, q) || Selected(MinePrivate, r, q))
              && !(Selected(MinePublic, r, q) && Selected(MinePrivate, r, q))
  {
  }

  // ---- the tag clause ----

  /** Rows of tags joined on one tag id and filtered by name. */
  function TagRows(tags: seq<TagRow>, tagId: nat, names: set<string>): seq<TagRow> {
    if tags == [] then []
    else (if tags[0].id == tagId && tags[0].name in names then [tags[0]] else []) + TagRows(tags[1..], tagId, names)
  }

  /** The joined rows that fall into one quiz's group. */
  function Group(quizId: Id, links: seq<Link>, tags: seq<TagRow>, names: set<string>): seq<TagRow> {
    if links == [] then []
    else (if links[0].quizId == quizId then TagRows(tags, links[0].tagId, names) else [])
         + Group(quizId, links[1..], tags, names)
  }

  /** The having clause; without names there is no join. */
  predicate TagClause(t: Tables, names: set<string>, q: QuizRow) {
    names != {} ==> |Group(q.id, t.links, t.tags, names)| == |names|
  }

  function ListQuizzes(t: Tables, mode: Mode, r: Request, names: set<string>): seq<QuizRow> {
    Filter(t.quizzes, q => Selected(mode, r, q) && TagClause(t, names, q))
  }

  function Filter(rows: seq<QuizRow>, p: QuizRow -> bool): (r: seq<QuizRow>)
    ensures forall q :: q in r <==> q in rows && p(q)
  {
    if rows == [] then [] else (if p(rows[0]) then [rows[0]] else []) + Filter(rows[1..], p)
  }

  /** The names of a quiz's tags, without the query. */
  ghost function NamesById(tags: seq<TagRow>, tagId: nat): set<string> {
    set tag | tag in tags && tag.id == tagId :: tag.name
  }

  ghost function TagNames(quizId: Id, links: seq<Link>, tags: seq<TagRow>): set<string> {
    set l, tag | l in links && tag in tags && l.quizId == quizId && tag.id == l.tagId :: tag.name
  }

  lemma {:induction false} TagRowsCount(tags: seq<TagRow>, tagId: nat, names: set<string>)
    requires TagsKeyed(tags)
    ensures |TagRows(tags, tagId, names)| == |NamesById(tags, tagId) * names|
    decreases |tags|
  {
    if tags == [] {
      assert NamesById(tags, tagId) == {};
    } else {
      var head, rest := tags[0], tags[1..];
      TagRowsCount(rest, tagId, names);
      if head.id == tagId {
        assert NamesById(rest, tagId) == {};
        assert NamesById(tags, tagId) == {head.name} by { assert head in tags; }
        assert {head.name} * names == if head.name in names then {head.name} else {};
      } else {
        NamesByIdTail(tags, tagId);
      }
    }
  }

  lemma NamesByIdTail(tags: seq<TagRow>, tagId: nat)
    requires tags != [] && tags[0].id != tagId
    ensures NamesById(tags, tagId) == NamesById(tags[1..], tagId)
  {
    assert forall tag :: tag in tags && tag.id == tagId <==> tag in tags[1..] && tag.id == tagId;
  }

  lemma TagNamesTail(quizId: Id, links: seq<Link>, tags: seq<TagRow>)
    requires links != []
    ensures TagNames(quizId, links, tags) ==
              (if links[0].quizId == quizId then NamesById(tags, links[0].tagId) else {}) + TagNames(quizId, links[1..], tags)
  {
    var head := if links[0].quizId == quizId then NamesById(tags, links[0].tagId) else {};
    forall n ensures n in TagNames(quizId, links, tags) <==> n in head || n in TagNames(quizId, links[1..], tags) {
      if n in TagNames(quizId, links, tags) {
        var l, tag :| l in links && tag in tags && l.quizId == quizId && tag.id == l.tagId && tag.name == n;
        assert l == links[0] || l in links[1..];
      }
      if n in head {
        var tag :| tag in tags && tag.id == links[0].tagId && tag.name == n;
        assert links[0] in links;
      }
      if n in TagNames(quizId, links[1..], tags) {
        var l, tag :| l in links[1..] && tag in tags && l.quizId == quizId && tag.id == l.tagId && tag.name == n;
        assert l in links;
      }
    }
  }

  /** Two links of one quiz never reach the same name. */
  lemma LinksReachDifferentNames(quizId: Id, links: seq<Link>, tags: seq<TagRow>)
    requires links != [] && Distinct(links) && TagsKeyed(tags) && links[0].quizId == quizId
    ensures NamesById(tags, links[0].tagId) !! TagNames(quizId, links[1..], tags)
  {
    assert links[0] !in links[1..];
    forall tag, tag' | tag in tags && tag' in tags && tag.name == tag'.name ensures tag.id == tag'.id {
    }
  }

  lemma DisjointCount<T>(a: set<T>, b: set<T>, c: set<T>)
    requires a !! b
    ensures |(a + b) * c| == |a * c| + |b * c|
  {
    assert (a + b) * c == a * c + b * c;
    assert a * c !! b * c;
  }

  lemma {:induction false} GroupCount(quizId: Id, links: seq<Link>, tags: seq<TagRow>, names: set<string>)
    requires Distinct(links) && TagsKeyed(tags)
    ensures |Group(quizId, links, tags, names)| == |TagNames(quizId, links, tags) * names|
    decreases |links|
  {
    if links == [] {
      assert TagNames(quizId, links, tags) == {};
    } else {
      hide TagNames, NamesById, TagsKeyed, TagRows;
      GroupCount(quizId, links[1..], tags, names);
      TagNamesTail(quizId, links, tags);
      var rest := TagNames(quizId, links[1..], tags);
      if links[0].quizId == quizId {
        TagRowsCount(tags, links[0].tagId, names);
        LinksReachDifferentNames(quizId, links, tags);
        DisjointCount(NamesById(tags, links[0].tagId), rest, names);
      } else {
        assert {} + rest == rest;
      }
    }
  }

  lemma SubsetOfSameSize<T>(a: set<T>, b: set<T>)
    requires a <= b && |a| == |b|
    ensures a == b
  {
    assert |b - a| == |b| - |a|;
  }

  /** Relational division: on keyed tables the join, group-by and having-count
      select a quiz if and only if it has every requested tag. */
  lemma TagClauseMeansAllTags(t: Tables, names: set<string>, q: QuizRow)
    requires Keyed(t)
    ensures TagClause(t, names, q) <==> names <= TagNames(q.id, t.links, t.tags)
  {
    var have := TagNames(q.id, t.links, t.tags);
    GroupCount(q.id, t.links, t.tags, names);
    if |have * names| == |names| {
      SubsetOfSameSize(have * names, names);
    }
    if names <= have {
      assert have * names == names;
    }
  }

  /** Without the key on the link table, one tag linked twice passes for two. */
  lemma DuplicateLinkDefeatsClause()
    ensures var t := Tables([QuizRow(1, 1, true)], [TagRow(1, "a"), TagRow(2, "b")], [Link(1, 1), Link(1, 1)]);
            && TagsKeyed(t.tags) && !Distinct(t.links)
            && TagClause(t, {"a", "b"}, t.quizzes[0])
            && !({"a", "b"} <= TagNames(1, t.links, t.tags))
  {
    var tags, links, names := [TagRow(1, "a"), TagRow(2, "b")], [Link(1, 1), Link(1, 1)], {"a", "b"};
    assert links[0] == links[1];
    assert tags[1..] == [TagRow(2, "b")];
    assert TagRows(tags[1..], 1, names) == [];
    assert TagRows(tags, 1, names) == [tags[0]];
    assert links[1..] == [Link(1, 1)];
    assert Group(1, links[1..], tags, names) == [tags[0]];
    assert Group(1, links, tags, names) == [tags[0], tags[0]];
    assert "b" !in TagNames(1, links, tags);
    assert |{"a", "b"}| == 2;
  }

  lemma {:induction false} FilterCounts(rows: seq<QuizRow>, p: QuizRow -> bool, q: QuizRow)
    ensures multiset(Filter(rows, p))[q] == if p(q) then multiset(rows)[q] else 0
    decreases |rows|
  {
    if rows != [] {
      FilterCounts(rows[1..], p, q);
      assert rows == [rows[0]] + rows[1..];
      assert multiset(Filter(rows, p)) == multiset(if p(rows[0]) then [rows[0]] else []) + multiset(Filter(rows[1..], p));
    }
  }

  lemma {:induction false} DistinctCounts<T>(s: seq<T>, x: T)
    requires Distinct(s)
    ensures multiset(s)[x] == if x in s then 1 else 0
    decreases |s|
  {
    if s != [] {
      DistinctCounts(s[1..], x);
      assert s == [s[0]] + s[1..];
      assert s[0] !in s[1..];
    }
  }

  /** Everything the service's listing returns: readable by the requester, asked
      for, tagged as requested, and nothing that meets all three is missing. Each
      quiz is listed once, though the join finds it once for each of its tags. */
  lemma ListingIsSoundAndComplete(t: Tables, r: Request, names: set<string>, q: QuizRow)
    requires Keyed(t) && ResolveFilterMode(r).Some?
    ensures multiset(ListQuizzes(t, ResolveFilterMode(r).value, r, names))[q] ==
              if && q in t.quizzes && Wanted(r, q) && names <= TagNames(q.id, t.links, t.tags)
                 && !(r.requester.Some? && r.mine == Some(false) && r.user.None?)
              then 1 else 0
  {
    ListingIsWhatWasAsked(r, q);
    TagClauseMeansAllTags(t, names, q);
    var mode := ResolveFilterMode(r).value;
    FilterCounts(t.quizzes, q => Selected(mode, r, q) && TagClause(t, names, q), q);
    DistinctCounts(t.quizzes, q);
  }

  /** No id is listed twice. */
  lemma ListedIdsDiffer(t: Tables, r: Request, names: set<string>, i: nat, j: nat)
    requires Keyed(t) && ResolveFilterMode(r).Some?
    requires i < j < |ListQuizzes(t, ResolveFilterMode(r).value, r, names)|
    ensures var listed := ListQuizzes(t, ResolveFilterMode(r).value, r, names); listed[i].id != listed[j].id
  {
    var listed := ListQuizzes(t, ResolveFilterMode(r).value, r, names);
    ListingIsSoundAndComplete(t, r, names, listed[i]);
    assert listed[i] in listed && listed[j] in listed;
    if listed[i] == listed[j] {
      TwiceCounts(listed, i, j);
    }
  }

  lemma TwiceCounts<T>(s: seq<T>, i: nat, j: nat)
    requires i < j < |s| && s[i] == s[j]
    ensures multiset(s)[s[i]] >= 2
  {
    assert s == s[..i + 1] + s[i + 1..];
    assert s[i] in s[..i + 1] && s[i + 1..][j - i - 1] == s[i];
  }
}
