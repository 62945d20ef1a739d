/**
 The policies table: rows under a primary key, at most one row for each (role, server, tool).
 */
module PolicyTable {
  import opened Wrappers
  import opened Uuids

  datatype Triple = Triple(role: Uuid, server: Uuid, tool: string)

  /** The columns an upsert overwrites. */
  datatype Rule = Rule(allowed: bool, redactFields: seq<string>, maxCallsPerMinute: int)

  datatype Row = Row(triple: Triple, rule: Rule, createdAt: int)

  ghost predicate UniqueTriples(rows: map<Uuid, Row>) {
    forall a, b :: a in rows && b in rows && rows[a].triple == rows[b].triple ==> a == b
  }

  type Table = rows: map<Uuid, Row> | UniqueTriples(rows) witness map[]

  /** A row as a lookup by triple sees it. */
  datatype Found = Found(id: Uuid, rule: Rule)

  /** newId is the id the database generates should the upsert insert. */
  datatype Op =
    | Upsert(triple: Triple, rule: Rule, newId: Uuid, at: int)
    | Delete(id: Uuid)
    | DeleteByRole(role: Uuid)

  function Find(t: Table, triple: Triple): (r: Option<Found>)
    ensures r.Some? ==> r.value.id in t && t[r.value.id].triple == triple && t[r.value.id].rule == r.value.rule
    ensures r.None? ==> forall id :: id in t ==> t[id].triple != triple
  {
    if id :| id in t && t[id].triple == triple then Some(Found(id, t[id].rule)) else None
  }

  function Apply(t: Table, op: Op): Table {
    match op
    case Upsert(triple, rule, newId, at) =>
      var found := Find(t, triple);
      if found.Some? then t[found.value.id := t[found.value.id].(rule := rule)]
      else if newId in t then t
      else t[newId := Row(triple, rule, at)]
    case Delete(id) => t - {id}
    case DeleteByRole(role) => map id | id in t && t[id].triple.role != role :: t[id]
  }

  function Run(ops: seq<Op>): Table {
    if ops == [] then map[] else Apply(Run(ops[..|ops| - 1]), ops[|ops| - 1])
  }

  class Policies {
    var rows: Table

    constructor ()
      ensures rows == map[]
    {
      rows := map[];
    }

    /** A collision of the generated id with an existing row fails, changing nothing. */
    method UpsertPolicy(triple: Triple, rule: Rule, newId: Uuid, at: int) returns (r: Result<Found, ()>)
      modifies this
      ensures rows == Apply(old(rows), Upsert(triple, rule, newId, at))
      ensures r.Err? <==> Find(old(rows), triple).None? && newId in old(rows)
      ensures r.Ok? ==> Find(rows, triple) == Some(r.value) && r.value.rule == rule
      ensures r.Ok? ==> r.value.id == if Find(old(rows), triple).Some? then Find(old(rows), triple).value.id else newId
    {
      var found := Find(rows, triple);
      if found.Some? {
        rows := rows[found.value.id := rows[found.value.id].(rule := rule)];
        FindUnique(rows, triple, found.value.id);
        return Ok(Found(found.value.id, rule));
      }
      if newId in rows {
        return Err(());
      }
      rows := rows[newId := Row(triple, rule, at)];
      FindUnique(rows, triple, newId);
      r := Ok(Found(newId, rule));
    }

    method DeletePolicy(id: Uuid)
      modifies this
      ensures rows == Apply(old(rows), Delete(id))
    {
      rows := rows - {id};
    }

    method DeletePoliciesByRole(role: Uuid)
      modifies this
      ensures rows == Apply(old(rows), DeleteByRole(role))
    {
      rows := map id | id in rows && rows[id].triple.role != role :: rows[id];
    }

    method GetPolicyByRoleServerTool(triple: Triple) returns (r: Option<Found>)
      ensures r == Find(rows, triple)
      ensures r.Some? ==>
        r.value.id in rows && rows[r.value.id].triple == triple && rows[r.value.id].rule == r.value.rule
      ensures r.None? <==> forall id :: id in rows ==> rows[id].triple != triple
    {
      r := Find(rows, triple);
    }
  }

  // ---------------------------------------------------------------- refinement of a map by triple

  /** The whole table as a map from triples; each operation below acts on one entry of it. */
  function Step(before: Option<Found>, taken: bool, op: Op, triple: Triple): Option<Found> {
    match op
    case Upsert(target, rule, newId, _) =>
      if target != triple then before
      else if before.Some? then Some(before.value.(rule := rule))
      else if taken then None
      else Some(Found(newId, rule))
    case Delete(id) => if before.Some? && before.value.id == id then None else before
    case DeleteByRole(role) => if triple.role == role then None else before
  }

  lemma FindUnique(t: Table, triple: Triple, id: Uuid)
    requires id in t && t[id].triple == triple
    ensures Find(t, triple) == Some(Found(id, t[id].rule))
  {
  }

  /** Lookups by triple after an operation depend on lookups by the same triple before it. */
  lemma ApplyRefinesStep(t: Table, op: Op, triple: Triple)
    ensures Find(Apply(t, op), triple) == Step(Find(t, triple), op.Upsert? && op.newId in t, op, triple)
  {
    var before, after := Find(t, triple), Apply(t, op);
    match op {
      case Upsert(target, rule, newId, at) =>
        if before.Some? {
          FindUnique(after, triple, before.value.id);
        } else if target == triple && newId !in t {
          FindUnique(after, triple, newId);
        }
      case Delete(id) =>
        if before.Some? && before.value.id != id {
          FindUnique(after, triple, before.value.id);
        }
      case DeleteByRole(role) =>
        if before.Some? && triple.role != role {
          FindUnique(after, triple, before.value.id);
        }
    }
  }

  /** A new row is the one upserted, with the time of its creation; an old one keeps its triple and time. */
  lemma RowsByUpsert(t: Table, op: Op, id: Uuid)
    requires id in Apply(t, op)
    ensures id !in t ==> op.Upsert? && op.newId == id && Apply(t, op)[id] == Row(op.triple, op.rule, op.at)
    ensures id in t ==> Apply(t, op)[id].triple == t[id].triple && Apply(t, op)[id].createdAt == t[id].createdAt
    ensures id in t && !Writes(op, t[id].triple) ==> Apply(t, op)[id] == t[id]
  {
  }

  predicate Removes(op: Op, triple: Triple, id: Uuid) {
    match op
    case Upsert(_, _, _, _) => false
    case Delete(target) => target == id
    case DeleteByRole(role) => role == triple.role
  }

  predicate Writes(op: Op, triple: Triple) {
    op.Upsert? && op.triple == triple
  }

  /** Operation i is an upsert of the triple that took effect and has neither been overwritten nor removed since. */
  ghost predicate GovernsAt(ops: seq<Op>, i: int, triple: Triple, found: Found)
    requires 0 <= i < |ops|
  {
    && Writes(ops[i], triple) && ops[i].rule == found.rule
    && Find(Run(ops[..i + 1]), triple) == Some(found)
    && forall j :: i < j < |ops| ==> !Writes(ops[j], triple) && !Removes(ops[j], triple, found.id)
  }

  /** One more operation: the lookup after it, from the lookup before it. */
  lemma FindSnoc(ops: seq<Op>, op: Op, triple: Triple)
    ensures Find(Run(ops + [op]), triple) ==
      Step(Find(Run(ops), triple), op.Upsert? && op.newId in Run(ops), op, triple)
  {
    assert (ops + [op])[..|ops|] == ops;
    ApplyRefinesStep(Run(ops), op, triple);
  }

  lemma {:induction false} GovernedStays(ops: seq<Op>, i: int, triple: Triple, found: Found)
    requires 0 <= i < |ops| && GovernsAt(ops, i, triple, found)
    ensures Find(Run(ops), triple) == Some(found)
  {
    var front, last := ops[..|ops| - 1], ops[|ops| - 1];
    assert ops == front + [last];
    if i == |front| {
      assert ops[..i + 1] == ops;
    } else {
      assert front[..i + 1] == ops[..i + 1];
      assert GovernsAt(front, i, triple, found);
      GovernedStays(front, i, triple, found);
      FindSnoc(front, last, triple);
    }
  }

  lemma GovernsSnoc(ops: seq<Op>, op: Op, i: int, triple: Triple, found: Found)
    requires 0 <= i < |ops| && GovernsAt(ops, i, triple, found)
    requires !Writes(op, triple) && !Removes(op, triple, found.id)
    ensures GovernsAt(ops + [op], i, triple, found)
  {
    assert (ops + [op])[..i + 1] == ops[..i + 1];
  }

  lemma {:induction false} FoundIsGoverned(ops: seq<Op>, triple: Triple, found: Found) returns (i: int)
    requires Find(Run(ops), triple) == Some(found)
    ensures 0 <= i < |ops| && GovernsAt(ops, i, triple, found)
  {
    var front, last := ops[..|ops| - 1], ops[|ops| - 1];
    assert ops == front + [last];
    FindSnoc(front, last, triple);
    if Writes(last, triple) {
      i := |front|;
      assert ops[..i + 1] == ops;
    } else {
      i := FoundIsGoverned(front, triple, found);
      GovernsSnoc(front, last, i, triple, found);
    }
  }

  /**
   Over any sequence of upserts and deletes, a lookup by triple returns a rule exactly when the
   last upsert of the triple wrote it and no later delete removed its row.
   */
  lemma LookupIsLastUpsert(ops: seq<Op>, triple: Triple, found: Found)
    ensures Find(Run(ops), triple) == Some(found) <==>
      exists i :: 0 <= i < |ops| && GovernsAt(ops, i, triple, found)
  {
    if Find(Run(ops), triple) == Some(found) {
      var i := FoundIsGoverned(ops, triple, found);
    }
    if i :| 0 <= i < |ops| && GovernsAt(ops, i, triple, found) {
      GovernedStays(ops, i, triple, found);
    }
  }

  /** The id of a triple's row survives any number of upserts, of this and of other triples. */
  lemma {:induction false} IdStable(ops: seq<Op>, more: seq<Op>, triple: Triple)
    requires Find(Run(ops), triple).Some?
    requires forall op :: op in more ==> !Removes(op, triple, Find(Run(ops), triple).value.id)
    ensures Find(Run(ops + more), triple).Some?
    ensures Find(Run(ops + more), triple).value.id == Find(Run(ops), triple).value.id
  {
    if more == [] {
      assert ops + more == ops;
    } else {
      var front, last := more[..|more| - 1], more[|more| - 1];
      IdStable(ops, front, triple);
      assert ops + more == ops + front + [last] && last in more;
      FindSnoc(ops + front, last, triple);
    }
  }
}
