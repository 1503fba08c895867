/**
 * Relation inference for one foreign key that points at a parent model.
 * Besides the direct has-one-or-many relation, the referencing table is
 * tested as a pivot: when its name holds the parent's record name, every
 * occurrence of that name is erased and each other foreign key of the
 * table whose target record name occurs in what is left becomes a
 * belongs-to-many candidate.
 */
module Relations {
  import opened Results
  import opened Strings
  import opened Metadata
  import opened OrderedMaps

  /** The model of a table as relation inference sees it. */
  datatype Model = Model(schema: string, table: string, recordName: string)

  /** What `referencing` yields for the parent: a foreign key pointing at
      it, the model of the referencing table and that table's blueprint. */
  datatype Related = Related(reference: Reference, model: Model, blueprint: Blueprint)

  /** A recorded pivot partner: the other foreign key and its target model. */
  datatype Candidate = Candidate(command: Reference, model: Model)

  datatype Relation =
    | BelongsToMany(reference: Reference, pivotReference: Reference, parent: Model, related: Model, target: Model)
    | HasOneOrMany(reference: Reference, parent: Model, related: Model)

  /** The collaborators whose results inference only passes on: the model
      `makeRelationModel` builds for a foreign key, and the names the two
      relation strategies choose. */
  datatype Collaborators = Collaborators(
    relationModel: (Model, Reference) -> Model,
    belongsToManyName: (Reference, Reference, Model, Model, Model) -> string,
    hasOneOrManyName: (Reference, Model, Model) -> string)

  function RelationName(c: Collaborators, r: Relation): string {
    match r
    case BelongsToMany(ref, pivot, parent, related, target) => c.belongsToManyName(ref, pivot, parent, related, target)
    case HasOneOrMany(ref, parent, related) => c.hasOneOrManyName(ref, parent, related)
  }

  /** The table name with every occurrence of the parent record name erased. */
  function Reduced(rel: Related, parent: Model): string {
    ReplaceAll(rel.blueprint.table, parent.recordName, "")
  }

  /** Whether one foreign key of the table is recorded as a partner. */
  predicate IsPartner(rel: Related, parent: Model, c: Collaborators, ref: Reference) {
    ref != rel.reference && Contains(Reduced(rel, parent), c.relationModel(rel.model, ref).recordName)
  }

  /** The partners among `refs`, in the order of `refs`. */
  function Scan(refs: seq<Reference>, rel: Related, parent: Model, c: Collaborators): seq<Candidate> {
    if refs == [] then []
    else
      (if IsPartner(rel, parent, c, refs[0]) then [Candidate(refs[0], c.relationModel(rel.model, refs[0]))] else [])
      + Scan(refs[1..], rel, parent, c)
  }

  /** The candidates one run of `hasPivot` records. */
  function Candidates(rel: Related, parent: Model, c: Collaborators): seq<Candidate> {
    if !Contains(rel.blueprint.table, parent.recordName) then []
    else Scan(rel.blueprint.relations, rel, parent, c)
  }

  /** The belongs-to-many relation built for a candidate. */
  function PivotRelation(rel: Related, parent: Model, cand: Candidate): Relation {
    BelongsToMany(rel.reference, cand.command, parent, rel.model, cand.model)
  }

  /** The direct relation. */
  function DirectRelation(rel: Related, parent: Model): Relation {
    HasOneOrMany(rel.reference, parent, rel.model)
  }

  /** The name-keyed writes of the candidates' relations, in order. */
  function PivotEntries(cands: seq<Candidate>, rel: Related, parent: Model, c: Collaborators): seq<(string, Relation)> {
    seq(|cands|, i requires 0 <= i < |cands| =>
      (RelationName(c, PivotRelation(rel, parent, cands[i])), PivotRelation(rel, parent, cands[i])))
  }

  /** What `make` returns for the recorded candidates. */
  function Assemble(cands: seq<Candidate>, rel: Related, parent: Model, c: Collaborators): seq<(string, Relation)> {
    var direct := DirectRelation(rel, parent);
    Put(PutAll([], PivotEntries(cands, rel, parent, c)), RelationName(c, direct), direct)
  }

  /** Candidates follow the declaration order of the foreign keys. */
  lemma {:induction false} ScanAppend(a: seq<Reference>, b: seq<Reference>, rel: Related, parent: Model, c: Collaborators)
    ensures Scan(a + b, rel, parent, c) == Scan(a, rel, parent, c) + Scan(b, rel, parent, c)
  {
    if a == [] {
      assert a + b == b;
    } else {
      assert (a + b)[1..] == a[1..] + b;
      ScanAppend(a[1..], b, rel, parent, c);
    }
  }

  /** Each candidate is another foreign key of the table (never the one
      under test, nor one equal to it), carries the model built for that
      key, and its record name occurs in the reduced table name. */
  lemma {:induction false} ScanSound(refs: seq<Reference>, rel: Related, parent: Model, c: Collaborators)
    ensures forall cand :: cand in Scan(refs, rel, parent, c) ==>
      && cand.command in refs
      && cand.command != rel.reference
      && cand.model == c.relationModel(rel.model, cand.command)
      && Contains(Reduced(rel, parent), cand.model.recordName)
  {
    if refs != [] {
      ScanSound(refs[1..], rel, parent, c);
    }
  }

  /** Every other foreign key whose target record name occurs in the
      reduced table name is recorded. */
  lemma {:induction false} ScanComplete(refs: seq<Reference>, rel: Related, parent: Model, c: Collaborators)
    ensures forall k :: 0 <= k < |refs| && IsPartner(rel, parent, c, refs[k]) ==>
      Candidate(refs[k], c.relationModel(rel.model, refs[k])) in Scan(refs, rel, parent, c)
  {
    if refs != [] {
      ScanComplete(refs[1..], rel, parent, c);
      forall k | 0 <= k < |refs| && IsPartner(rel, parent, c, refs[k])
        ensures Candidate(refs[k], c.relationModel(rel.model, refs[k])) in Scan(refs, rel, parent, c)
      {
        if k > 0 {
          assert refs[k] == refs[1..][k - 1];
        }
      }
    }
  }

  /** A table whose name does not hold the parent record name is no pivot. */
  lemma NoPivotWithoutParentName(rel: Related, parent: Model, c: Collaborators)
    requires !Contains(rel.blueprint.table, parent.recordName)
    ensures Candidates(rel, parent, c) == []
    ensures Assemble(Candidates(rel, parent, c), rel, parent, c)
      == [(RelationName(c, DirectRelation(rel, parent)), DirectRelation(rel, parent))]
  {
  }

  /** The relations `make` returns: keys are distinct, the direct relation
      is always present under its name (inserted last, so it replaces a
      belongs-to-many of the same name), every other name holds the last
      belongs-to-many written under it, and there is at most one entry per
      candidate plus one. */
  lemma AssembleProperties(cands: seq<Candidate>, rel: Related, parent: Model, c: Collaborators)
    ensures var r := Assemble(cands, rel, parent, c);
      && DistinctKeys(r)
      && Lookup(r, RelationName(c, DirectRelation(rel, parent))) == Some(DirectRelation(rel, parent))
      && (forall name :: name != RelationName(c, DirectRelation(rel, parent)) ==>
            Lookup(r, name) == LastValue(PivotEntries(cands, rel, parent, c), name))
      && |r| <= |cands| + 1
  {
    var kvs := PivotEntries(cands, rel, parent, c);
    forall name ensures Lookup(PutAll([], kvs), name) == LastValue(kvs, name) {
      PutAllLookup([], kvs, name);
    }
    PutAllKeys([], kvs);
  }

  /** Among candidates whose relations share a name, the later one is kept. */
  lemma LaterPivotWins(cands: seq<Candidate>, extra: Candidate, rel: Related, parent: Model, c: Collaborators)
    requires RelationName(c, PivotRelation(rel, parent, extra)) != RelationName(c, DirectRelation(rel, parent))
    ensures Lookup(Assemble(cands + [extra], rel, parent, c), RelationName(c, PivotRelation(rel, parent, extra)))
      == Some(PivotRelation(rel, parent, extra))
  {
    var kvs := PivotEntries(cands + [extra], rel, parent, c);
    AssembleProperties(cands + [extra], rel, parent, c);
    assert kvs[|kvs| - 1] == (RelationName(c, PivotRelation(rel, parent, extra)), PivotRelation(rel, parent, extra));
  }

  /** Recording the same candidates twice (as a second `make` on the same
      factory does) gives the same relations as recording them once. */
  lemma AssembleTwice(cands: seq<Candidate>, rel: Related, parent: Model, c: Collaborators)
    ensures Assemble(cands + cands, rel, parent, c) == Assemble(cands, rel, parent, c)
  {
    var kvs := PivotEntries(cands, rel, parent, c);
    assert PivotEntries(cands + cands, rel, parent, c) == kvs + kvs;
    PutAllConcat([], kvs, kvs);
    PutAllTwice([], kvs);
  }

  lemma {:induction false} PutAllConcat<V>(m: seq<(string, V)>, a: seq<(string, V)>, b: seq<(string, V)>)
    requires DistinctKeys(m)
    ensures PutAll(m, a + b) == PutAll(PutAll(m, a), b)
    decreases |a|
  {
    if a == [] {
      assert a + b == b;
    } else {
      assert (a + b)[1..] == a[1..] + b;
      PutAllConcat(Put(m, a[0].0, a[0].1), a[1..], b);
    }
  }

  /** Foreign keys of the examples below. */
  function ForeignKey(table: string, column: string, onTable: string): Reference {
    Reference(table + "_" + column + "_foreign", [column], onTable, ["id"])
  }

  /** Example collaborators: the record name of `posts`, `tags`, `users`
      and `orders` is the singular, relations are named after the table of
      their target. */
  function ExampleCollaborators(): Collaborators {
    Collaborators(
      (m: Model, r: Reference) => Model(m.schema, r.onTable, if |r.onTable| > 0 then r.onTable[..|r.onTable| - 1] else ""),
      (ref: Reference, pivot: Reference, p: Model, rm: Model, t: Model) => t.table,
      (ref: Reference, p: Model, rm: Model) => rm.table)
  }

  /** `posts_tags` with keys to `posts` and `tags`, seen from `posts`: the
      key to `tags` is the one partner, so `posts` gets a belongs-to-many to
      `tags` beside the direct relation. */
  lemma PostsTagsIsPivot()
    ensures var refPost := ForeignKey("posts_tags", "post_id", "posts");
      var refTag := ForeignKey("posts_tags", "tag_id", "tags");
      var rel := Related(refPost, Model("app", "posts_tags", "posts_tag"), Blueprint("app", "posts_tags", [refPost, refTag]));
      var parent := Model("app", "posts", "post");
      Candidates(rel, parent, ExampleCollaborators()) == [Candidate(refTag, Model("app", "tags", "tag"))]
  {
    var refPost := ForeignKey("posts_tags", "post_id", "posts");
    var refTag := ForeignKey("posts_tags", "tag_id", "tags");
    var rel := Related(refPost, Model("app", "posts_tags", "posts_tag"), Blueprint("app", "posts_tags", [refPost, refTag]));
    var parent := Model("app", "posts", "post");
    var c := ExampleCollaborators();
    assert Contains("posts_tags", "post") by {
      assert IsPrefix("post", "posts_tags");
    }
    PostsTagsReduced();
    assert Reduced(rel, parent) == "s_tags";
    assert c.relationModel(rel.model, refTag) == Model("app", "tags", "tag") by {
      assert "tags"[..|"tags"| - 1] == "tag";
    }
    TagOccurs();
    assert refTag != refPost by { assert refTag.onTable != refPost.onTable; }
    assert IsPartner(rel, parent, c, refTag);
    assert !IsPartner(rel, parent, c, refPost);
    ScanPair(refPost, refTag, rel, parent, c);
  }

  /** Of two keys where only the second is a partner, the second alone is
      recorded. */
  lemma ScanPair(a: Reference, b: Reference, rel: Related, parent: Model, c: Collaborators)
    requires !IsPartner(rel, parent, c, a) && IsPartner(rel, parent, c, b)
    ensures Scan([a, b], rel, parent, c) == [Candidate(b, c.relationModel(rel.model, b))]
  {
    assert [a, b][1..] == [b] && [b][1..] == [];
    assert Scan([b], rel, parent, c) == [Candidate(b, c.relationModel(rel.model, b))] + Scan([], rel, parent, c);
  }

  /** Erasing `post` from `posts_tags` leaves `s_tags`. */
  lemma PostsTagsReduced()
    ensures ReplaceAll("posts_tags", "post", "") == "s_tags"
  {
    assert IsPrefix("post", "posts_tags");
    ReplacedPrefix("posts_tags", "post");
    assert "posts_tags"[|"post"|..] == "s_tags";
    ReplaceAbsent("s_tags", "post", "");
  }

  /** `tag` occurs in `s_tags`. */
  lemma TagOccurs()
    ensures Contains("s_tags", "tag")
  {
    assert IsPrefix("tag", "tags");
    assert Occurs("tag", "s_tags") by {
      assert "s_tags"[1..] == "_tags" && "_tags"[1..] == "tags";
    }
  }

  /** `order_items` with its only key to `orders`: no other key, so no pivot. */
  lemma OrderItemsIsNoPivot()
    ensures var refOrder := ForeignKey("order_items", "order_id", "orders");
      var rel := Related(refOrder, Model("app", "order_items", "order_item"), Blueprint("app", "order_items", [refOrder]));
      Candidates(rel, Model("app", "orders", "order"), ExampleCollaborators()) == []
  {
  }

  /** The parent record name is erased everywhere: for the self-referencing
      table `user_user` seen from `users` only `_` is left, so its second
      key to `users` is never a partner and no belongs-to-many is built,
      where erasing the first occurrence only would leave `_user`. */
  lemma SelfPivotIsMissed()
    ensures var refA := ForeignKey("user_user", "user_id", "users");
      var refB := ForeignKey("user_user", "friend_id", "users");
      var rel := Related(refA, Model("app", "user_user", "user_user"), Blueprint("app", "user_user", [refA, refB]));
      var parent := Model("app", "users", "user");
      && Reduced(rel, parent) == "_"
      && Candidates(rel, parent, ExampleCollaborators()) == []
  {
    var refA := ForeignKey("user_user", "user_id", "users");
    var refB := ForeignKey("user_user", "friend_id", "users");
    var rel := Related(refA, Model("app", "user_user", "user_user"), Blueprint("app", "user_user", [refA, refB]));
    var parent := Model("app", "users", "user");
    ReplacedPrefix("user_user", "user");
    assert "user_user"[|"user"|..] == "_user";
    assert ReplaceAll("_user", "user", "") == "_" + ReplaceAll("user", "user", "") by {
      assert !IsPrefix("user", "_user") by {
        assert "_user"[..|"user"|][0] != "user"[0];
      }
      assert "_user"[1..] == "user";
    }
    ReplacedPrefix("user", "user");
    assert "user"[|"user"|..] == "";
    assert Reduced(rel, parent) == "_";
    assert !Occurs("user", "_") by {
      assert "_"[1..] == "";
    }
    assert [refA, refB][1..] == [refB];
  }

  /** Erasing a needle at the front of the subject. */
  lemma ReplacedPrefix(s: string, needle: string)
    requires needle != [] && IsPrefix(needle, s)
    ensures ReplaceAll(s, needle, "") == ReplaceAll(s[|needle|..], needle, "")
  {
  }

  class ReferenceFactory {
    const related: Related
    const parent: Model
    const collaborators: Collaborators
    /** Partners recorded by `hasPivot`; never reset between calls. */
    var references: seq<Candidate>

    constructor (related: Related, parent: Model, collaborators: Collaborators)
      ensures this.related == related && this.parent == parent && this.collaborators == collaborators
      ensures references == []
    {
      this.related := related;
      this.parent := parent;
      this.collaborators := collaborators;
      references := [];
    }

    /** `hasPivot`: appends this run's candidates; when the table name holds
        the parent record name, reports whether any candidate is recorded. */
    method HasPivot() returns (pivot: bool)
      modifies this
      ensures references == old(references) + Candidates(related, parent, collaborators)
      ensures pivot <==> Contains(related.blueprint.table, parent.recordName) && references != []
    {
      var table := related.blueprint.table;
      var firstRecord := parent.recordName;
      if !Contains(table, firstRecord) {
        return false;
      }
      var reduced := ReplaceAll(table, firstRecord, "");
      var refs := related.blueprint.relations;
      for i := 0 to |refs|
        invariant references == old(references) + Scan(refs[..i], related, parent, collaborators)
      {
        ScanAppend(refs[..i], [refs[i]], related, parent, collaborators);
        Strings.TakeSnoc(refs, i);
        var reference := refs[i];
        if reference == related.reference {
          continue;
        }
        var target := collaborators.relationModel(related.model, reference);
        if Contains(reduced, target.recordName) {
          references := references + [Candidate(reference, target)];
        }
      }
      assert refs[..|refs|] == refs;
      return |references| > 0;
    }

    /** `make`: the belongs-to-many relations of every recorded candidate,
        written by name in order, then the direct relation. */
    method Make() returns (relations: seq<(string, Relation)>)
      modifies this
      ensures references == old(references) + Candidates(related, parent, collaborators)
      ensures relations == Assemble(
        if Contains(related.blueprint.table, parent.recordName) then references else [],
        related, parent, collaborators)
    {
      relations := [];
      var pivot := HasPivot();
      if pivot {
        var cands := references;
        ghost var kvs := PivotEntries(cands, related, parent, collaborators);
        for i := 0 to |cands|
          invariant relations == PutAll([], kvs[..i])
          invariant references == cands
        {
          var relation := BelongsToMany(related.reference, cands[i].command, parent, related.model, cands[i].model);
          assert kvs[i] == (RelationName(collaborators, relation), relation);
          PutAllSnoc([], kvs[..i], kvs[i]);
          Strings.TakeSnoc(kvs, i);
          relations := Put(relations, RelationName(collaborators, relation), relation);
        }
        assert kvs[..|cands|] == kvs;
      }
      var relation := HasOneOrMany(related.reference, parent, related.model);
      relations := Put(relations, RelationName(collaborators, relation), relation);
    }

    /** A second `make` records the candidates again but returns the same
        relations as the first. */
    method MakeTwice() returns (first: seq<(string, Relation)>, second: seq<(string, Relation)>)
      requires references == []
      modifies this
      ensures first == second
    {
      ghost var cands := Candidates(related, parent, collaborators);
      first := Make();
      assert references == cands;
      second := Make();
      assert references == cands + cands;
      AssembleTwice(cands, related, parent, collaborators);
    }
  }
}
