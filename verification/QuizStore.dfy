/** Creating and updating quizzes with their tags, each in one transaction, and the
    round trip from the tags given to the tags matched. */
module QuizStore {
  import opened Options
  import opened QuizListing

  ghost function StoredNames(tags: seq<TagRow>): set<string> {
    set tag | tag in tags :: tag.name
  }

  ghost function NameSet(names: seq<string>): set<string> {
    set n | n in names
  }

  lemma NameSetGrows(names: seq<string>, i: nat)
    requires i < |names|
    ensures NameSet(names[..i + 1]) == NameSet(names[..i]) + {names[i]}
  {
    assert names[..i + 1] == names[..i] + [names[i]];
  }

  ghost predicate TagTable(tags: seq<TagRow>, next: nat) {
    TagsKeyed(tags) && forall tag :: tag in tags ==> tag.id < next
  }

  /** The unique constraint on tag names fires on a name that is created twice. */
  ghost predicate CreatedTwice(tags: seq<TagRow>, names: seq<string>) {
    exists i, j :: 0 <= i < j < |names| && names[i] == names[j] && names[i] !in StoredNames(tags)
  }

  datatype Bulk = Violation | Bulk(picked: seq<TagRow>, tags: seq<TagRow>, next: nat)

  /** SELECT ... WHERE name IN names, as a dictionary by name. */
  method ExistingTags(tags: seq<TagRow>, names: seq<string>) returns (existing: map<string, TagRow>)
    requires TagsKeyed(tags)
    ensures forall n :: n in existing <==> n in names && n in StoredNames(tags)
    ensures forall n :: n in existing ==> existing[n] in tags && existing[n].name == n
  {
    existing := map[];
    for i := 0 to |tags|
      invariant forall n :: n in existing <==> n in names && n in StoredNames(tags[..i])
      invariant forall n :: n in existing ==> existing[n] in tags && existing[n].name == n
    {
      StoredNamesGrow(tags[..i], tags[i]);
      assert tags[..i + 1] == tags[..i] + [tags[i]];
      if tags[i].name in names {
        existing := existing[tags[i].name := tags[i]];
      }
    }
    assert tags[..|tags|] == tags;
  }

  lemma StoredNamesGrow(tags: seq<TagRow>, tag: TagRow)
    ensures StoredNames(tags + [tag]) == StoredNames(tags) + {tag.name}
  {
    assert tag in tags + [tag];
    forall n ensures n in StoredNames(tags + [tag]) <==> n in StoredNames(tags) || n == tag.name {
      if n in StoredNames(tags) {
        var u :| u in tags && u.name == n;
        assert u in tags + [tag];
      }
    }
  }

  lemma TableGrows(tags: seq<TagRow>, next: nat, name: string)
    requires TagTable(tags, next) && name !in StoredNames(tags)
    ensures TagTable(tags + [TagRow(next, name)], next + 1)
  {
    forall i | 0 <= i < |tags| ensures tags[i].name != name && tags[i].id != next {
      assert tags[i] in tags;
    }
  }

  /** BaseRepository.create for a tag: the unique constraint decides. */
  method CreateTag(tags: seq<TagRow>, next: nat, name: string) returns (created: bool, tag: TagRow)
    requires TagTable(tags, next)
    ensures tag == TagRow(next, name)
    ensures created <==> name !in StoredNames(tags)
    ensures created ==> TagTable(tags + [tag], next + 1) && StoredNames(tags + [tag]) == StoredNames(tags) + {name}
  {
    tag := TagRow(next, name);
    created := !exists t :: t in tags && t.name == name;
    StoredNamesGrow(tags, tag);
    if created {
      TableGrows(tags, next, name);
    }
  }

  /** What the loop has done with the first i names. */
  ghost predicate Picked(tags: seq<TagRow>, names: seq<string>, i: nat, picked: seq<TagRow>, tags': seq<TagRow>)
    requires i <= |names|
  {
    && tags <= tags' && |picked| == i
    && StoredNames(tags') == StoredNames(tags) + NameSet(names[..i])
    && forall j :: 0 <= j < i ==> picked[j].name == names[j] && picked[j] in tags'
  }

  ghost predicate NoRepeat(tags: seq<TagRow>, names: seq<string>, i: nat)
    requires i <= |names|
  {
    forall j, k :: 0 <= j < k < i && names[j] == names[k] ==> names[j] in StoredNames(tags)
  }

  lemma PickOne(tags: seq<TagRow>, names: seq<string>, i: nat, picked: seq<TagRow>, tags': seq<TagRow>, tag: TagRow, tags'': seq<TagRow>)
    requires i < |names| && Picked(tags, names, i, picked, tags')
    requires tag.name == names[i] && tag in tags'' && tags' <= tags'' && StoredNames(tags'') == StoredNames(tags') + {names[i]}
    ensures Picked(tags, names, i + 1, picked + [tag], tags'')
  {
    NameSetGrows(names, i);
  }

  lemma NoRepeatYet(tags: seq<TagRow>, names: seq<string>, i: nat)
    requires i < |names| && NoRepeat(tags, names, i)
    requires names[i] in StoredNames(tags) || names[i] !in NameSet(names[..i])
    ensures NoRepeat(tags, names, i + 1)
  {
    forall j | 0 <= j < i && names[j] == names[i] ensures names[j] in StoredNames(tags) {
      assert names[..i][j] == names[i];
    }
  }

  lemma RepeatFound(tags: seq<TagRow>, names: seq<string>, i: nat, picked: seq<TagRow>, tags': seq<TagRow>)
    requires i < |names| && Picked(tags, names, i, picked, tags') && names[i] in StoredNames(tags') && names[i] !in StoredNames(tags)
    ensures CreatedTwice(tags, names)
  {
    var j :| 0 <= j < i && names[..i][j] == names[i];
    assert names[j] == names[i];
  }

  lemma PickExisting(tags: seq<TagRow>, names: seq<string>, i: nat, picked: seq<TagRow>, tags': seq<TagRow>, tag: TagRow)
    requires i < |names| && Picked(tags, names, i, picked, tags') && NoRepeat(tags, names, i)
    requires tag in tags && tag.name == names[i] && names[i] in StoredNames(tags)
    ensures Picked(tags, names, i + 1, picked + [tag], tags') && NoRepeat(tags, names, i + 1)
  {
    assert StoredNames(tags') + {names[i]} == StoredNames(tags');
    NoRepeatYet(tags, names, i);
    hide NoRepeat;
    PickOne(tags, names, i, picked, tags', tag, tags');
  }

  lemma PickCreated(tags: seq<TagRow>, names: seq<string>, i: nat, picked: seq<TagRow>, tags': seq<TagRow>, tag: TagRow)
    requires i < |names| && Picked(tags, names, i, picked, tags') && NoRepeat(tags, names, i)
    requires tag.name == names[i] && names[i] !in StoredNames(tags') && StoredNames(tags' + [tag]) == StoredNames(tags') + {names[i]}
    ensures Picked(tags, names, i + 1, picked + [tag], tags' + [tag]) && NoRepeat(tags, names, i + 1)
  {
    NoRepeatYet(tags, names, i);
    hide NoRepeat;
    PickOne(tags, names, i, picked, tags', tag, tags' + [tag]);
  }

  lemma TwiceMeans(tags: seq<TagRow>, names: seq<string>)
    ensures CreatedTwice(tags, names) <==>
              exists i, j :: 0 <= i < j < |names| && names[i] == names[j] && !exists tag :: tag in tags && tag.name == names[i]
  {
    if CreatedTwice(tags, names) {
      var i, j :| 0 <= i < j < |names| && names[i] == names[j] && names[i] !in StoredNames(tags);
      assert forall tag :: tag in tags ==> tag.name in StoredNames(tags);
    }
  }

  lemma NoneTwice(tags: seq<TagRow>, names: seq<string>)
    requires NoRepeat(tags, names, |names|)
    ensures !exists i, j :: 0 <= i < j < |names| && names[i] == names[j] && !exists tag :: tag in tags && tag.name == names[i]
  {
    TwiceMeans(tags, names);
  }

  /** One tag for each name, in order; names not yet in the table are created. */
  method GetOrCreateBulk(tags: seq<TagRow>, next: nat, names: seq<string>) returns (r: Bulk)
    requires TagTable(tags, next)
    ensures r.Violation? <==>
              exists i, j :: 0 <= i < j < |names| && names[i] == names[j] && !exists tag :: tag in tags && tag.name == names[i]
    ensures r.Bulk? ==>
              && TagTable(r.tags, r.next) && tags <= r.tags
              && StoredNames(r.tags) == StoredNames(tags) + NameSet(names)
              && |r.picked| == |names|
              && forall i :: 0 <= i < |names| ==> r.picked[i].name == names[i] && r.picked[i] in r.tags
  {
    var existing := ExistingTags(tags, names);
    var picked: seq<TagRow> := [];
    var tags', next' := tags, next;
    for i := 0 to |names|
      invariant TagTable(tags', next')
      invariant Picked(tags, names, i, picked, tags') && NoRepeat(tags, names, i)
    {
      hide CreatedTwice, NoRepeat, TagTable, TagsKeyed, Picked, StoredNames, NameSet;
      if names[i] in existing {
        PickExisting(tags, names, i, picked, tags', existing[names[i]]);
        picked := picked + [existing[names[i]]];
      } else {
        var created, tag := CreateTag(tags', next', names[i]);
        if !created {
          RepeatFound(tags, names, i, picked, tags');
          TwiceMeans(tags, names);
          return Violation;
        }
        PickCreated(tags, names, i, picked, tags', tag);
        tags', next', picked := tags' + [tag], next' + 1, picked + [tag];
      }
    }
    assert names[..|names|] == names;
    NoneTwice(tags, names);
    return Bulk(picked, tags', next');
  }

  function LinksFor(quizId: Id, picked: seq<TagRow>): (r: seq<Link>)
    ensures |r| == |picked|
    ensures forall i :: 0 <= i < |r| ==> r[i] == Link(quizId, picked[i].id)
  {
    seq(|picked|, i requires 0 <= i < |picked| => Link(quizId, picked[i].id))
  }

  function WithoutQuiz(links: seq<Link>, quizId: Id): (r: seq<Link>)
    ensures forall l :: l in r <==> l in links && l.quizId != quizId
  {
    if links == [] then []
    else (if links[0].quizId == quizId then [] else [links[0]]) + WithoutQuiz(links[1..], quizId)
  }

  lemma {:induction false} WithoutQuizDistinct(links: seq<Link>, quizId: Id)
    requires Distinct(links)
    ensures Distinct(WithoutQuiz(links, quizId))
    decreases |links|
  {
    if links != [] {
      WithoutQuizDistinct(links[1..], quizId);
      assert links[0] !in links[1..];
    }
  }

  /** quiz.tags = picked. */
  function Retag(links: seq<Link>, quizId: Id, picked: seq<TagRow>): seq<Link> {
    WithoutQuiz(links, quizId) + LinksFor(quizId, picked)
  }

  lemma TableDeterminesTag(tags: seq<TagRow>, a: TagRow, b: TagRow)
    requires TagsKeyed(tags) && a in tags && b in tags
    ensures a.id == b.id || a.name == b.name ==> a == b
  {
  }

  lemma RetagDistinct(links: seq<Link>, quizId: Id, picked: seq<TagRow>, names: seq<string>, tags: seq<TagRow>)
    requires Distinct(links) && Distinct(names) && TagsKeyed(tags)
    requires |picked| == |names|
    requires forall i :: 0 <= i < |names| ==> picked[i].name == names[i] && picked[i] in tags
    ensures Distinct(Retag(links, quizId, picked))
  {
    WithoutQuizDistinct(links, quizId);
    var kept, added := WithoutQuiz(links, quizId), LinksFor(quizId, picked);
    forall i, j | 0 <= i < j < |added| ensures added[i] != added[j] {
      TableDeterminesTag(tags, picked[i], picked[j]);
    }
    forall i | 0 <= i < |kept| ensures kept[i].quizId != quizId {
      assert kept[i] in kept;
    }
  }

  lemma RetagNames(links: seq<Link>, quizId: Id, picked: seq<TagRow>, names: seq<string>, tags: seq<TagRow>)
    requires TagsKeyed(tags) && |picked| == |names|
    requires forall i :: 0 <= i < |names| ==> picked[i].name == names[i] && picked[i] in tags
    ensures TagNames(quizId, Retag(links, quizId, picked), tags) == NameSet(names)
  {
    var links' := Retag(links, quizId, picked);
    forall n ensures n in TagNames(quizId, links', tags) <==> n in names {
      if n in TagNames(quizId, links', tags) {
        var l, tag :| l in links' && tag in tags && l.quizId == quizId && tag.id == l.tagId && tag.name == n;
        var i :| 0 <= i < |picked| && l == Link(quizId, picked[i].id);
        TableDeterminesTag(tags, tag, picked[i]);
      }
      if n in names {
        var i :| 0 <= i < |names| && names[i] == n;
        assert LinksFor(quizId, picked)[i] in links';
      }
    }
  }

  /** Retagging one quiz and adding tags leaves every other quiz's tags alone. */
  lemma RetagSparesOthers(links: seq<Link>, quizId: Id, picked: seq<TagRow>, tags: seq<TagRow>, tags': seq<TagRow>, other: Id)
    requires other != quizId && tags <= tags' && TagsKeyed(tags')
    requires forall l :: l in links ==> exists tag :: tag in tags && tag.id == l.tagId
    ensures TagNames(other, Retag(links, quizId, picked), tags') == TagNames(other, links, tags)
  {
    var links' := Retag(links, quizId, picked);
    forall n ensures n in TagNames(other, links', tags') <==> n in TagNames(other, links, tags) {
      if n in TagNames(other, links', tags') {
        var l, tag :| l in links' && tag in tags' && l.quizId == other && tag.id == l.tagId && tag.name == n;
        assert l in links;
        var old_ :| old_ in tags && old_.id == l.tagId;
        assert old_ in tags';
        TableDeterminesTag(tags', tag, old_);
      }
      if n in TagNames(other, links, tags) {
        var l, tag :| l in links && tag in tags && l.quizId == other && tag.id == l.tagId && tag.name == n;
        assert l in links' && tag in tags';
      }
    }
  }

  // ---- normalisation ----

  /** Some raw tag that is not empty cannot be normalised. */
  ghost predicate Refused(norm: string -> Option<string>, raws: seq<string>) {
    exists raw :: raw in raws && raw != "" && norm(raw).None?
  }

  /** n is what some raw tag that is not empty normalises to. */
  ghost predicate Given(norm: string -> Option<string>, raws: seq<string>, n: string) {
    exists raw :: raw in raws && raw != "" && norm(raw) == Some(n)
  }

  /** Empty raw tags are dropped, each other one is normalised, and one that cannot
      be refuses the whole request. */
  method Normalize(norm: string -> Option<string>, raws: seq<string>) returns (r: Option<set<string>>)
    ensures r.None? <==> exists raw :: raw in raws && raw != "" && norm(raw).None?
    ensures r.Some? ==> forall n :: n in r.value <==> exists raw :: raw in raws && raw != "" && norm(raw) == Some(n)
  {
    var names: set<string> := {};
    for i := 0 to |raws|
      invariant !Refused(norm, raws[..i])
      invariant forall n :: n in names <==> Given(norm, raws[..i], n)
    {
      assert raws[..i + 1] == raws[..i] + [raws[i]];
      if raws[i] != "" {
        var name := norm(raws[i]);
        if name.None? {
          assert raws[i] in raws;
          return None;
        }
        names := names + {name.value};
        assert Given(norm, raws[..i + 1], name.value) by { assert raws[i] in raws[..i + 1]; }
      }
      GivenGrows(norm, raws, i);
    }
    assert raws[..|raws|] == raws;
    assert forall n :: n in names <==> Given(norm, raws, n);
    return Some(names);
  }

  lemma GivenGrows(norm: string -> Option<string>, raws: seq<string>, i: nat)
    requires i < |raws|
    ensures forall n :: Given(norm, raws[..i + 1], n) <==> Given(norm, raws[..i], n) || (raws[i] != "" && norm(raws[i]) == Some(n))
  {
    assert raws[..i + 1] == raws[..i] + [raws[i]];
    assert forall raw :: raw in raws[..i + 1] <==> raw in raws[..i] || raw == raws[i];
  }

  /** A set as a list, in some order. */
  method ListOf(names: set<string>) returns (list: seq<string>)
    ensures Distinct(list) && NameSet(list) == names
  {
    list := [];
    var left := names;
    while left != {}
      invariant Distinct(list) && NameSet(list) + left == names && NameSet(list) !! left
      decreases left
    {
      var name :| name in left;
      assert name !in list by {
        assert name in list ==> name in NameSet(list);
      }
      assert NameSet(list + [name]) == NameSet(list) + {name};
      list, left := list + [name], left - {name};
    }
  }

  /** Round trip: a quiz whose tags are the normal forms of some raw tags is
      matched by a filter made of raw tags exactly if each one asked for that is not
      empty normalises to the same name as one that was given; in particular a
      filter made of given raw tags matches. */
  lemma TaggedQuizIsFound(t: Tables, q: QuizRow, norm: string -> Option<string>, given: seq<string>, asked: seq<string>, names: set<string>)
    requires Keyed(t) && !Refused(norm, asked)
    requires forall n :: n in TagNames(q.id, t.links, t.tags) <==> exists raw :: raw in given && raw != "" && norm(raw) == Some(n)
    requires forall n :: n in names <==> exists raw :: raw in asked && raw != "" && norm(raw) == Some(n)
    ensures TagClause(t, names, q) <==>
              forall raw :: raw in asked && raw != "" ==> exists raw' :: raw' in given && raw' != "" && norm(raw') == norm(raw)
    ensures (forall raw :: raw in asked ==> raw in given) ==> TagClause(t, names, q)
  {
    TagClauseMeansAllTags(t, names, q);
    hide TagClause, TagNames, Keyed;
    if forall raw :: raw in asked && raw != "" ==> exists raw' :: raw' in given && raw' != "" && norm(raw') == norm(raw) {
    } else {
      var raw :| raw in asked && raw != "" && !exists raw' :: raw' in given && raw' != "" && norm(raw') == norm(raw);
      assert norm(raw).Some?;
      assert norm(raw).value in names;
    }
  }

  datatype Status = Ok | NotFound | Forbidden | Invalid

  /** The index of the row with the given id, or the length of the table. */
  function Find(quizzes: seq<QuizRow>, id: Id): (i: nat)
    ensures i <= |quizzes|
    ensures i < |quizzes| ==> quizzes[i].id == id
    ensures i == |quizzes| ==> forall q :: q in quizzes ==> q.id != id
  {
    if quizzes == [] || quizzes[0].id == id then 0 else 1 + Find(quizzes[1..], id)
  }

  lemma SameIds(t: Tables, i: nat, row: QuizRow)
    requires Keyed(t) && i < |t.quizzes| && row.id == t.quizzes[i].id
    requires forall l :: l in t.links ==> exists q :: q in t.quizzes && q.id == l.quizId
    ensures Keyed(t.(quizzes := t.quizzes[i := row]))
    ensures forall l :: l in t.links ==> exists q :: q in t.quizzes[i := row] && q.id == l.quizId
    ensures row in t.quizzes[i := row]
  {
    var quizzes := t.quizzes[i := row];
    assert quizzes[i] == row;
    forall l | l in t.links ensures exists q :: q in quizzes && q.id == l.quizId {
      var j :| 0 <= j < |t.quizzes| && t.quizzes[j].id == l.quizId;
      assert quizzes[j].id == l.quizId;
    }
  }

  class Store {
    var tables: Tables
    var next: nat

    ghost predicate Valid()
      reads this
    {
      && Keyed(tables) && TagTable(tables.tags, next)
      && (forall l :: l in tables.links ==> exists tag :: tag in tables.tags && tag.id == l.tagId)
      && (forall l :: l in tables.links ==> exists q :: q in tables.quizzes && q.id == l.quizId)
    }

    constructor ()
      ensures Valid() && tables == Tables([], [], [])
    {
      tables, next := Tables([], [], []), 0;
    }

    /** The quiz row is written first; a raw tag that cannot be normalised rolls it
        back. */
    method CreateQuiz(quizId: Id, ownerId: Id, isPublic: bool, norm: string -> Option<string>, raws: seq<string>)
      returns (status: Status)
      requires Valid()
      requires forall q :: q in tables.quizzes ==> q.id != quizId
      modifies this
      ensures Valid()
      ensures status == if exists raw :: raw in raws && raw != "" && norm(raw).None? then Invalid else Ok
      ensures status == Invalid ==> tables == old(tables) && next == old(next)
      ensures status == Ok ==>
                && tables.quizzes == old(tables.quizzes) + [QuizRow(quizId, ownerId, isPublic)]
                && (forall n :: n in TagNames(quizId, tables.links, tables.tags) <==>
                                  exists raw :: raw in raws && raw != "" && norm(raw) == Some(n))
                && StoredNames(tables.tags) == old(StoredNames(tables.tags)) + TagNames(quizId, tables.links, tables.tags)
                && forall us: set<string> ::
                     TagClause(tables, us, QuizRow(quizId, ownerId, isPublic)) <==> us <= TagNames(quizId, tables.links, tables.tags)
      ensures forall other :: other != quizId ==>
                TagNames(other, tables.links, tables.tags) == old(TagNames(other, tables.links, tables.tags))
    {
      var before := tables;
      var row := QuizRow(quizId, ownerId, isPublic);
      tables := tables.(quizzes := tables.quizzes + [row]);
      assert row in tables.quizzes;
      var names := Normalize(norm, raws);
      if names.None? {
        tables := before;
        return Invalid;
      }
      var list := ListOf(names.value);
      var bulk := GetOrCreateBulk(tables.tags, next, list);
      SetTags(quizId, list, bulk, tables.quizzes);
      forall us: set<string> ensures TagClause(tables, us, row) <==> us <= names.value {
        TagClauseMeansAllTags(tables, us, row);
      }
      return Ok;
    }

    /** Refused updates change nothing, also when the fields have been changed before
        a tag is refused. Otherwise absent fields stay as they were, and given tags
        replace the old ones. */
    method UpdateQuiz(quizId: Id, userId: Id, isPublic: Option<bool>, norm: string -> Option<string>, raws: Option<seq<string>>)
      returns (status: Status)
      requires Valid()
      modifies this
      ensures Valid()
      ensures status == NotFound <==> forall q :: q in old(tables.quizzes) ==> q.id != quizId
      ensures status == Forbidden <==> exists q :: q in old(tables.quizzes) && q.id == quizId && q.ownerId != userId
      ensures status == Invalid <==>
                && (exists q :: q in old(tables.quizzes) && q.id == quizId && q.ownerId == userId)
                && raws.Some? && exists raw :: raw in raws.value && raw != "" && norm(raw).None?
      ensures status != Ok ==> tables == old(tables) && next == old(next)
      ensures status == Ok ==>
                var i := Find(old(tables.quizzes), quizId);
                && i < |old(tables.quizzes)|
                && var row := old(tables.quizzes)[i];
                   && row.id == quizId && row.ownerId == userId
                   && tables.quizzes ==
                      old(tables.quizzes)[i := row.(isPublic := if isPublic.Some? then isPublic.value else row.isPublic)]
      ensures status == Ok && raws.Some? ==>
                && (forall n :: n in TagNames(quizId, tables.links, tables.tags) <==>
                                  exists raw :: raw in raws.value && raw != "" && norm(raw) == Some(n))
                && StoredNames(tables.tags) == old(StoredNames(tables.tags)) + TagNames(quizId, tables.links, tables.tags)
                && forall us: set<string>, q: QuizRow :: q.id == quizId ==>
                     (TagClause(tables, us, q) <==> us <= TagNames(quizId, tables.links, tables.tags))
      ensures status == Ok && raws.None? ==> tables.tags == old(tables.tags) && tables.links == old(tables.links)
      ensures status == Ok ==>
                forall other :: other != quizId || raws.None? ==>
                  TagNames(other, tables.links, tables.tags) == old(TagNames(other, tables.links, tables.tags))
    {
      var i := Find(tables.quizzes, quizId);
      if i == |tables.quizzes| {
        return NotFound;
      }
      var row, before := tables.quizzes[i], tables;
      if row.ownerId != userId {
        return Forbidden;
      }
      var changed := if isPublic.Some? then row.(isPublic := isPublic.value) else row;
      SameIds(tables, i, changed);
      tables := tables.(quizzes := tables.quizzes[i := changed]);
      if raws.None? {
        return Ok;
      }
      var names := Normalize(norm, raws.value);
      if names.None? {
        tables := before;
        return Invalid;
      }
      var list := ListOf(names.value);
      var bulk := GetOrCreateBulk(tables.tags, next, list);
      SetTags(quizId, list, bulk, tables.quizzes);
      forall us: set<string>, q: QuizRow | q.id == quizId ensures TagClause(tables, us, q) <==> us <= names.value {
        TagClauseMeansAllTags(tables, us, q);
      }
      return Ok;
    }

    /** The end of a transaction that retags one quiz. */
    method SetTags(quizId: Id, names: seq<string>, bulk: Bulk, quizzes: seq<QuizRow>)
      requires Valid() && Distinct(names) && bulk.Bulk?
      requires TagTable(bulk.tags, bulk.next) && tables.tags <= bulk.tags && |bulk.picked| == |names|
      requires forall i :: 0 <= i < |names| ==> bulk.picked[i].name == names[i] && bulk.picked[i] in bulk.tags
      requires Keyed(tables.(quizzes := quizzes))
      requires forall l :: l in tables.links ==> exists q :: q in quizzes && q.id == l.quizId
      requires exists q :: q in quizzes && q.id == quizId
      modifies this
      ensures Valid() && tables.quizzes == quizzes
      ensures tables.tags == bulk.tags
      ensures TagNames(quizId, tables.links, tables.tags) == NameSet(names)
      ensures forall other :: other != quizId ==>
                TagNames(other, tables.links, tables.tags) == old(TagNames(other, tables.links, tables.tags))
    {
      var links := Retag(tables.links, quizId, bulk.picked);
      RetagDistinct(tables.links, quizId, bulk.picked, names, bulk.tags);
      RetagNames(tables.links, quizId, bulk.picked, names, bulk.tags);
      forall other | other != quizId
        ensures TagNames(other, links, bulk.tags) == TagNames(other, tables.links, tables.tags)
      {
        RetagSparesOthers(tables.links, quizId, bulk.picked, tables.tags, bulk.tags, other);
      }
      forall l | l in links
        ensures exists tag :: tag in bulk.tags && tag.id == l.tagId
        ensures exists q :: q in quizzes && q.id == l.quizId
      {
        if l in tables.links {
          var tag :| tag in tables.tags && tag.id == l.tagId;
          assert tag in bulk.tags;
        } else {
          var i :| 0 <= i < |bulk.picked| && l == Link(quizId, bulk.picked[i].id);
          assert bulk.picked[i] in bulk.tags;
        }
      }
      tables := Tables(quizzes, bulk.tags, links);
      next := bulk.next;
    }
  }
}
