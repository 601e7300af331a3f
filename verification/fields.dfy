/** The field mapper shared by every entity (`SoapResponseBase.__init__`).

    Each entity type has a table of (internal name, wire name) pairs. The
    mapper copies each wire field found on the response node into the
    entity's attribute of the internal name, and stores the absent marker
    when the wire field is missing; a missing field never raises. Subtypes
    extend a table by concatenation. */
module Fields {
  import opened Results
  import opened Wire

  /** (internal name, wire name) pairs, in declaration order. */
  type FieldTable = seq<(string, string)>

  /** An entity's mapped attributes, by internal name. */
  type Attributes = map<string, Option<Value>>

  /** The internal names a table writes. */
  function InternalNames(table: FieldTable): (names: set<string>)
    ensures forall i :: 0 <= i < |table| ==> table[i].0 in names
    ensures forall d :: d in names ==> exists i :: 0 <= i < |table| && table[i].0 == d
  {
    set i | 0 <= i < |table| :: table[i].0
  }

  /** No two entries write the same internal name (true of every table in the source). */
  predicate DistinctNames(table: FieldTable)
  {
    forall i, j :: 0 <= i < j < |table| ==> table[i].0 != table[j].0
  }

  /** Every table entry's attribute holds the wire value, or None when the
      wire field is absent. */
  predicate MappedFrom(attrs: Attributes, table: FieldTable, v: Value)
  {
    forall i :: 0 <= i < |table| ==>
      table[i].0 in attrs && attrs[table[i].0] == GetAttr(v, table[i].1)
  }

  /** The loop over `field_mapping`: each pair in turn sets its attribute from
      the wire field of the same pair, or to None when that field is absent. */
  function MapFields(table: FieldTable, v: Value): (attrs: Attributes)
    ensures attrs.Keys == InternalNames(table)
    ensures DistinctNames(table) ==> MappedFrom(attrs, table, v)
    decreases |table|
  {
    if |table| == 0 then map[]
    else
      var n := |table| - 1;
      var prev := MapFields(table[..n], v);
      MapStep(table, v, prev);
      prev[table[n].0 := GetAttr(v, table[n].1)]
  }

  /** One iteration of the mapping loop: setting the last pair's attribute
      extends what the earlier pairs established. */
  lemma MapStep(table: FieldTable, v: Value, prev: Attributes)
    requires |table| > 0
    requires prev.Keys == InternalNames(table[..|table| - 1])
    requires DistinctNames(table[..|table| - 1]) ==> MappedFrom(prev, table[..|table| - 1], v)
    ensures prev[table[|table| - 1].0 := GetAttr(v, table[|table| - 1].1)].Keys == InternalNames(table)
    ensures DistinctNames(table) ==>
      MappedFrom(prev[table[|table| - 1].0 := GetAttr(v, table[|table| - 1].1)], table, v)
  {
    var n := |table| - 1;
    var front := table[..n];
    var attrs := prev[table[n].0 := GetAttr(v, table[n].1)];
    assert forall i :: 0 <= i < n ==> front[i] == table[i];
    NamesStep(table);
    if DistinctNames(table) {
      assert DistinctNames(front);
      forall i | 0 <= i < |table|
        ensures table[i].0 in attrs && attrs[table[i].0] == GetAttr(v, table[i].1)
      {
        if i < n {
          assert table[i].0 != table[n].0;
        }
      }
    }
  }

  lemma NamesStep(table: FieldTable)
    requires |table| > 0
    ensures InternalNames(table) == InternalNames(table[..|table| - 1]) + {table[|table| - 1].0}
  {
    var n := |table| - 1;
    var front := table[..n];
    forall d | d in InternalNames(table) ensures d in InternalNames(front) + {table[n].0} {
      var i :| 0 <= i < |table| && table[i].0 == d;
      if i < n { assert front[i].0 == d; }
    }
    forall d | d in InternalNames(front) ensures d in InternalNames(table) {
      var i :| 0 <= i < |front| && front[i].0 == d;
      assert table[i].0 == d;
    }
  }

  /** Reads a mapped attribute; an unmapped name reads as absent. */
  function Attr(attrs: Attributes, name: string): Option<Value>
  {
    if name in attrs then attrs[name] else None
  }

  /** Reading entry `k`'s attribute of a mapped entity. */
  lemma MappedAttr(attrs: Attributes, table: FieldTable, v: Value, k: nat)
    requires MappedFrom(attrs, table, v)
    requires k < |table|
    ensures Attr(attrs, table[k].0) == GetAttr(v, table[k].1)
  {
  }

  /** A subtype's table is its parent's table with entries appended: a
      subtype mapping reads every parent field from the same wire field. */
  lemma ExtendedEntry(attrs: Attributes, base: FieldTable, extra: FieldTable, v: Value, k: nat)
    requires MappedFrom(attrs, base + extra, v)
    requires k < |base|
    ensures Attr(attrs, base[k].0) == GetAttr(v, base[k].1)
  {
    assert (base + extra)[k] == base[k];
  }
}
