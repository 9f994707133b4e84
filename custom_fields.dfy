/** The custom-field list of a document. Each handler builds a new list from
    the current one (spread, `map`, `filter`) and hands it on; the current
    list is never changed in place. */
module CustomFieldList {
  import opened InvoiceTypes

  /** `Partial<CustomField>`: `Some` marks a key the patch sets. */
  datatype FieldPatch = FieldPatch(id: Option<string>, labelText: Option<string>, value: Option<string>)

  /** `{ ...f, ...updates }`. */
  function MergeField(f: CustomField, p: FieldPatch): (r: CustomField)
    ensures p.id.Some? ==> r.id == p.id.value
    ensures p.id.None? ==> r.id == f.id
    ensures r.labelText == (if p.labelText.Some? then p.labelText.value else f.labelText)
    ensures r.value == (if p.value.Some? then p.value.value else f.value)
  {
    CustomField(Pick(p.id, f.id), Pick(p.labelText, f.labelText), Pick(p.value, f.value))
  }

  /** `addField`: the fields, then one blank field with the fresh id. */
  function AddField(fields: seq<CustomField>, freshId: string): (r: seq<CustomField>)
    ensures |r| == |fields| + 1 && r[..|fields|] == fields
    ensures r[|fields|].id == freshId && r[|fields|].labelText == [] && r[|fields|].value == []
  {
    fields + [CustomField(freshId, "", "")]
  }

  /** `updateField`: every field with the id gets the patch; the others stay
      as they are and where they are. */
  function UpdateField(fields: seq<CustomField>, id: string, p: FieldPatch): (r: seq<CustomField>)
    ensures |r| == |fields|
    ensures forall k :: 0 <= k < |fields| && fields[k].id != id ==> r[k] == fields[k]
    ensures forall k :: 0 <= k < |fields| && fields[k].id == id ==> r[k] == MergeField(fields[k], p)
  {
    seq(|fields|, k requires 0 <= k < |fields| =>
      if fields[k].id == id then MergeField(fields[k], p) else fields[k])
  }

  /** `removeField`: the fields without the id, in their order. */
  function RemoveField(fields: seq<CustomField>, id: string): (r: seq<CustomField>)
    ensures |r| <= |fields|
    ensures forall f :: f in r <==> f in fields && f.id != id
  {
    if fields == [] then []
    else (if fields[0].id == id then [] else [fields[0]]) + RemoveField(fields[1..], id)
  }

  /** No field carries the id. */
  predicate Absent(fields: seq<CustomField>, id: string)
  {
    forall k :: 0 <= k < |fields| ==> fields[k].id != id
  }

  /** Updating an id no field carries changes nothing. */
  lemma UpdateAbsent(fields: seq<CustomField>, id: string, p: FieldPatch)
    requires Absent(fields, id)
    ensures UpdateField(fields, id, p) == fields
  {
  }

  /** Updating twice with the same patch is updating once: a patch that
      renames the id leaves nothing for the second update to match. */
  lemma UpdateIdempotent(fields: seq<CustomField>, id: string, p: FieldPatch)
    ensures UpdateField(UpdateField(fields, id, p), id, p) == UpdateField(fields, id, p)
  {
    var once := UpdateField(fields, id, p);
    var twice := UpdateField(once, id, p);
    forall k | 0 <= k < |fields| ensures twice[k] == once[k] {
      if once[k].id == id {
        assert fields[k].id == id;
        assert p.id.None? || p.id.value == id;
      }
    }
  }

  /** Removal works field by field: on a concatenation it removes from both
      parts and keeps their order. */
  lemma {:induction false} RemoveConcat(a: seq<CustomField>, b: seq<CustomField>, id: string)
    ensures RemoveField(a + b, id) == RemoveField(a, id) + RemoveField(b, id)
  {
    if a == [] {
      assert a + b == b;
    } else {
      assert (a + b)[1..] == a[1..] + b;
      RemoveConcat(a[1..], b, id);
    }
  }

  /** Removing an id no field carries changes nothing. */
  lemma {:induction false} RemoveAbsent(fields: seq<CustomField>, id: string)
    requires Absent(fields, id)
    ensures RemoveField(fields, id) == fields
  {
    if fields != [] {
      RemoveAbsent(fields[1..], id);
    }
  }

  /** After a removal no field carries the id, so removing again changes
      nothing. */
  lemma RemoveIdempotent(fields: seq<CustomField>, id: string)
    ensures Absent(RemoveField(fields, id), id)
    ensures RemoveField(RemoveField(fields, id), id) == RemoveField(fields, id)
  {
    var r := RemoveField(fields, id);
    forall k | 0 <= k < |r| ensures r[k].id != id {
      assert r[k] in r;
    }
    RemoveAbsent(r, id);
  }

  /** Removing the field just added with a fresh id gives back the list. */
  lemma RemoveUndoesAdd(fields: seq<CustomField>, freshId: string)
    requires Absent(fields, freshId)
    ensures RemoveField(AddField(fields, freshId), freshId) == fields
  {
    RemoveConcat(fields, [CustomField(freshId, "", "")], freshId);
    RemoveAbsent(fields, freshId);
    assert RemoveField([CustomField(freshId, "", "")], freshId) == [];
  }

  /** Once the fields with the id are removed, an earlier update of them
      that kept their id leaves no trace. */
  lemma {:induction false} RemoveAfterUpdate(fields: seq<CustomField>, id: string, p: FieldPatch)
    requires p.id.None? || p.id.value == id
    ensures RemoveField(UpdateField(fields, id, p), id) == RemoveField(fields, id)
  {
    if fields != [] {
      var u := UpdateField(fields, id, p);
      assert u[1..] == UpdateField(fields[1..], id, p);
      assert (u[0].id == id) == (fields[0].id == id);
      RemoveAfterUpdate(fields[1..], id, p);
    }
  }
}
