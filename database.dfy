/**
 * The query builders of the shared SQLite helper: the SQL text and the
 * parameter list of `query_shipments` and `query_vessel_positions`, and the
 * row-to-dictionary conversion. Executing the query is left out: callers
 * receive the rows as inputs.
 */
module Database {
  import opened Common

  /** A `?` placeholder character. */
  predicate IsPlaceholder(c: char)
  {
    c == '?'
  }

  /** The number of `?` placeholders in a piece of SQL. */
  function Placeholders(sql: string): nat
  {
    CountIf(sql, IsPlaceholder)
  }

  /** Placeholder-free text counts none. */
  lemma {:induction false} FreeCountsNone(sql: string)
    requires '?' !in sql
    ensures Placeholders(sql) == 0
  {
    if sql != [] {
      assert sql[0] in sql;
      FreeCountsNone(sql[1..]);
    }
  }

  /** Placeholders add up over concatenation. */
  lemma PlaceholdersAppend(a: string, b: string)
    ensures Placeholders(a + b) == Placeholders(a) + Placeholders(b)
  {
    CountIfAppend(a, b, IsPlaceholder);
  }

  /** Text without placeholders in front of other text adds none. */
  lemma FreeHead(a: string, b: string)
    requires '?' !in a
    ensures Placeholders(a + b) == Placeholders(b)
  {
    FreeCountsNone(a);
    PlaceholdersAppend(a, b);
  }

  /** Text without placeholders after other text adds none. */
  lemma FreeTail(a: string, b: string)
    requires '?' !in b
    ensures Placeholders(a + b) == Placeholders(a)
  {
    FreeCountsNone(b);
    PlaceholdersAppend(a, b);
  }

  /** The equality condition on a column: `column = ?`. */
  function Condition(column: string): string
  {
    column + " = ?"
  }

  /** The pattern condition on a column: `column LIKE ?`. */
  function LikeCondition(column: string): string
  {
    column + " LIKE ?"
  }

  /** A condition holds exactly one placeholder when its column name holds none. */
  lemma ConditionHasOne(column: string)
    requires '?' !in column
    ensures Placeholders(Condition(column)) == 1
    ensures Placeholders(LikeCondition(column)) == 1
  {
    assert Condition(column) == (column + " = ") + "?";
    FreeHead(column + " = ", "?");
    assert LikeCondition(column) == (column + " LIKE ") + "?";
    FreeHead(column + " LIKE ", "?");
  }

  /** One condition per column, in column order. */
  function Conditions(cols: seq<string>): (conds: seq<string>)
    ensures |conds| == |cols|
    ensures forall i :: 0 <= i < |cols| ==> conds[i] == Condition(cols[i])
  {
    if cols == [] then [] else Conditions(cols[..|cols| - 1]) + [Condition(cols[|cols| - 1])]
  }

  /** The filter values of the given columns, in column order. */
  function Values(filters: map<string, string>, cols: seq<string>): (params: seq<string>)
    requires forall c :: c in cols ==> c in filters
    ensures |params| == |cols|
    ensures forall i :: 0 <= i < |cols| ==> params[i] == filters[cols[i]]
  {
    if cols == [] then [] else Values(filters, cols[..|cols| - 1]) + [filters[cols[|cols| - 1]]]
  }

  /** The WHERE clause of a condition list: nothing for no conditions, otherwise the conditions joined by AND. */
  function WhereClause(conds: seq<string>): string
  {
    if conds == [] then "" else " WHERE " + Join(conds, " AND ")
  }

  /** Joining parts that hold one placeholder each, with a separator that holds none, gives one per part. */
  lemma {:induction false} JoinPlaceholders(parts: seq<string>, sep: string)
    requires forall i :: 0 <= i < |parts| ==> Placeholders(parts[i]) == 1
    requires '?' !in sep
    ensures Placeholders(Join(parts, sep)) == |parts|
  {
    if |parts| > 1 {
      JoinPlaceholders(parts[1..], sep);
      FreeTail(parts[0], sep);
      PlaceholdersAppend(parts[0] + sep, Join(parts[1..], sep));
    }
  }

  /** A WHERE clause over conditions with one placeholder each holds as many placeholders as conditions. */
  lemma WherePlaceholders(conds: seq<string>)
    requires forall i :: 0 <= i < |conds| ==> Placeholders(conds[i]) == 1
    ensures Placeholders(WhereClause(conds)) == |conds|
  {
    if conds != [] {
      JoinPlaceholders(conds, " AND ");
      FreeHead(" WHERE ", Join(conds, " AND "));
    }
  }

  /** A recognised column, listed when the filters hold it. */
  function Pick(f: map<string, string>, column: string): seq<string>
  {
    if column in f then [column] else []
  }

  /** The shipment columns a call filters on, in the fixed order job number, status, container number. */
  function ShipmentFilterColumns(filters: Option<map<string, string>>): (cols: seq<string>)
    ensures forall c :: c in cols ==> filters.Some? && c in filters.value
  {
    if filters.None? then []
    else
      var f := filters.value;
      Pick(f, "job_number") + Pick(f, "status") + Pick(f, "container_number")
  }

  /** The SQL text of `query_shipments(filters)`. */
  function ShipmentsQuery(filters: Option<map<string, string>>): string
  {
    "SELECT * FROM shipments" + WhereClause(Conditions(ShipmentFilterColumns(filters)))
  }

  /** The parameters of `query_shipments(filters)`. */
  function ShipmentsParams(filters: Option<map<string, string>>): seq<string>
  {
    if filters.None? then [] else Values(filters.value, ShipmentFilterColumns(filters))
  }

  /** One `if key in filters` step: the condition and the value are appended when the filters hold the column. */
  method AddFilter(f: map<string, string>, column: string, conditions: seq<string>, params: seq<string>, ghost cols: seq<string>)
    returns (conditions': seq<string>, params': seq<string>, ghost cols': seq<string>)
    requires forall c :: c in cols ==> c in f
    requires conditions == Conditions(cols) && params == Values(f, cols)
    ensures cols' == cols + Pick(f, column)
    ensures forall c :: c in cols' ==> c in f
    ensures conditions' == Conditions(cols') && params' == Values(f, cols')
  {
    conditions', params', cols' := conditions, params, cols;
    if column in f {
      conditions', params' := conditions + [Condition(column)], params + [f[column]];
      cols' := cols + [column];
      assert cols'[..|cols'| - 1] == cols;
    } else {
      assert cols' == cols + [];
    }
  }

  /**
   * `query_shipments`: the conditions and parameters are appended for the
   * recognised keys in their fixed order, and the WHERE clause added only
   * when some condition was.
   */
  method QueryShipments(filters: Option<map<string, string>>) returns (query: string, params: seq<string>)
    ensures query == ShipmentsQuery(filters)
    ensures params == ShipmentsParams(filters)
  {
    query := "SELECT * FROM shipments";
    params := [];
    if filters.Some? && filters.value != map[] {
      var f := filters.value;
      var conditions: seq<string> := [];
      ghost var cols: seq<string> := [];
      conditions, params, cols := AddFilter(f, "job_number", conditions, params, cols);
      conditions, params, cols := AddFilter(f, "status", conditions, params, cols);
      conditions, params, cols := AddFilter(f, "container_number", conditions, params, cols);
      assert cols == ShipmentFilterColumns(filters);
      if conditions != [] {
        query := query + (" WHERE " + Join(conditions, " AND "));
      }
    } else if filters.Some? {
      assert ShipmentFilterColumns(filters) == [];
    }
  }

  /** Without filters, or with none of the recognised keys (such as a lone `id`), every shipment is read. */
  lemma UnfilteredShipmentsQuery(filters: Option<map<string, string>>)
    requires filters.Some? ==> "job_number" !in filters.value && "status" !in filters.value && "container_number" !in filters.value
    ensures ShipmentsQuery(filters) == "SELECT * FROM shipments"
    ensures ShipmentsParams(filters) == []
  {
    assert ShipmentFilterColumns(filters) == [];
  }

  /** Keys other than the recognised three never change the query or its parameters. */
  lemma ExtraKeysIgnored(filters: map<string, string>, key: string, value: string)
    requires key != "job_number" && key != "status" && key != "container_number"
    ensures ShipmentsQuery(Some(filters[key := value])) == ShipmentsQuery(Some(filters))
    ensures ShipmentsParams(Some(filters[key := value])) == ShipmentsParams(Some(filters))
  {
    var cols := ShipmentFilterColumns(Some(filters));
    assert ShipmentFilterColumns(Some(filters[key := value])) == cols;
    ValuesIgnore(filters, cols, key, value);
  }

  /** Helper: reading columns other than `key` does not see an update of `key`. */
  lemma {:induction false} ValuesIgnore(filters: map<string, string>, cols: seq<string>, key: string, value: string)
    requires forall c :: c in cols ==> c in filters && c != key
    ensures Values(filters[key := value], cols) == Values(filters, cols)
  {
    if cols != [] {
      var prefix := cols[..|cols| - 1];
      forall c | c in prefix
        ensures c in cols
      {
        var i :| 0 <= i < |prefix| && prefix[i] == c;
        assert cols[i] == c;
      }
      ValuesIgnore(filters, prefix, key, value);
      assert cols[|cols| - 1] in cols;
    }
  }

  /** The recognised column names hold no placeholder. */
  lemma ShipmentColumnsFree(filters: Option<map<string, string>>)
    ensures forall c :: c in ShipmentFilterColumns(filters) ==> '?' !in c
  {
  }

  /** `query_shipments` always binds exactly one parameter per `?` in its SQL. */
  lemma ShipmentPlaceholdersMatchParams(filters: Option<map<string, string>>)
    ensures Placeholders(ShipmentsQuery(filters)) == |ShipmentsParams(filters)|
  {
    var cols := ShipmentFilterColumns(filters);
    var conds := Conditions(cols);
    ShipmentColumnsFree(filters);
    forall i | 0 <= i < |conds|
      ensures Placeholders(conds[i]) == 1
    {
      assert cols[i] in cols;
      ConditionHasOne(cols[i]);
    }
    WherePlaceholders(conds);
    FreeHead("SELECT * FROM shipments", WhereClause(conds));
  }

  /** The vessel-position conditions: a LIKE on the name, then an equality on the IMO number, each only when truthy. */
  function VesselConditions(vesselName: Option<string>, imoNumber: Option<string>): (conds: seq<string>)
    ensures |conds| <= 2
  {
    (if Truthy(vesselName) then [LikeCondition("vessel_name")] else [])
    + (if Truthy(imoNumber) then [Condition("imo_number")] else [])
  }

  /** The vessel-position parameters: the name wrapped in `%` wildcards, then the IMO number. */
  function VesselParams(vesselName: Option<string>, imoNumber: Option<string>): (params: seq<string>)
    ensures |params| == |VesselConditions(vesselName, imoNumber)|
  {
    (if Truthy(vesselName) then ["%" + vesselName.value + "%"] else [])
    + (if Truthy(imoNumber) then [imoNumber.value] else [])
  }

  /** The SQL text of `query_vessel_positions`. */
  function VesselQuery(vesselName: Option<string>, imoNumber: Option<string>): string
  {
    "SELECT * FROM vessel_positions" + WhereClause(VesselConditions(vesselName, imoNumber)) + " ORDER BY timestamp DESC LIMIT 10"
  }

  /** `query_vessel_positions`: conditions and parameters appended in turn, then the WHERE clause and the fixed ordering. */
  method QueryVesselPositions(vesselName: Option<string>, imoNumber: Option<string>) returns (query: string, params: seq<string>)
    ensures query == VesselQuery(vesselName, imoNumber)
    ensures params == VesselParams(vesselName, imoNumber)
  {
    query := "SELECT * FROM vessel_positions";
    params := [];
    var conditions: seq<string> := [];
    if Truthy(vesselName) {
      conditions := conditions + [LikeCondition("vessel_name")];
      params := params + ["%" + vesselName.value + "%"];
    }
    if Truthy(imoNumber) {
      conditions := conditions + [Condition("imo_number")];
      params := params + [imoNumber.value];
    }
    if conditions != [] {
      query := query + (" WHERE " + Join(conditions, " AND "));
    }
    query := query + " ORDER BY timestamp DESC LIMIT 10";
  }

  /** The vessel-position query binds one parameter per `?`. */
  lemma VesselPlaceholdersMatchParams(vesselName: Option<string>, imoNumber: Option<string>)
    ensures Placeholders(VesselQuery(vesselName, imoNumber)) == |VesselParams(vesselName, imoNumber)|
  {
    VesselWherePlaceholders(vesselName, imoNumber);
    VesselFrameFree();
    FramedPlaceholders("SELECT * FROM vessel_positions", WhereClause(VesselConditions(vesselName, imoNumber)), " ORDER BY timestamp DESC LIMIT 10");
  }

  /** The WHERE clause of the vessel-position query holds one placeholder per condition. */
  lemma VesselWherePlaceholders(vesselName: Option<string>, imoNumber: Option<string>)
    ensures Placeholders(WhereClause(VesselConditions(vesselName, imoNumber))) == |VesselConditions(vesselName, imoNumber)|
  {
    ConditionHasOne("vessel_name");
    ConditionHasOne("imo_number");
    OptionalPairPlaceholders(LikeCondition("vessel_name"), Condition("imo_number"), Truthy(vesselName), Truthy(imoNumber));
  }

  /** Helper: a WHERE clause over up to two single-placeholder conditions holds one placeholder per condition used. */
  lemma OptionalPairPlaceholders(a: string, b: string, useA: bool, useB: bool)
    requires Placeholders(a) == 1 && Placeholders(b) == 1
    ensures var conds := (if useA then [a] else []) + (if useB then [b] else []);
      Placeholders(WhereClause(conds)) == |conds|
  {
    var conds := (if useA then [a] else []) + (if useB then [b] else []);
    forall i | 0 <= i < |conds|
      ensures Placeholders(conds[i]) == 1
    {
    }
    WherePlaceholders(conds);
  }

  /** The fixed head and tail of the vessel-position query hold no placeholder. */
  lemma VesselFrameFree()
    ensures '?' !in "SELECT * FROM vessel_positions"
    ensures '?' !in " ORDER BY timestamp DESC LIMIT 10"
  {
  }

  /** Fixed placeholder-free text around a clause adds no placeholder to it. */
  lemma FramedPlaceholders(head: string, clause: string, tail: string)
    requires '?' !in head && '?' !in tail
    ensures Placeholders(head + clause + tail) == Placeholders(clause)
  {
    FreeHead(head, clause);
    FreeTail(head + clause, tail);
  }

  /** Every vessel-position query, filtered or not, ends by keeping only the latest ten records. */
  lemma VesselQueryEndsWithLimit(vesselName: Option<string>, imoNumber: Option<string>)
    ensures exists head :: VesselQuery(vesselName, imoNumber) == head + " ORDER BY timestamp DESC LIMIT 10"
  {
    var head := "SELECT * FROM vessel_positions" + WhereClause(VesselConditions(vesselName, imoNumber));
    assert VesselQuery(vesselName, imoNumber) == head + " ORDER BY timestamp DESC LIMIT 10";
  }

  /**
   * `dict(zip(row.keys(), row))`: pairs are taken up to the shorter of the
   * two lists, and a repeated key keeps its last value.
   */
  function DictFromRow<V>(keys: seq<string>, values: seq<V>): (m: map<string, V>)
    ensures forall k :: k in m <==> exists i :: 0 <= i < |keys| && i < |values| && keys[i] == k
    decreases |keys|
  {
    if keys == [] || values == [] then map[]
    else
      var n := if |keys| < |values| then |keys| else |values|;
      DictFromRow(keys[..n - 1], values[..n - 1])[keys[n - 1] := values[n - 1]]
  }

  /** With distinct column names, every column maps to the value in its position. */
  lemma {:induction false} DictFromRowPositional<V>(keys: seq<string>, values: seq<V>)
    requires |keys| == |values|
    requires forall i, j :: 0 <= i < j < |keys| ==> keys[i] != keys[j]
    ensures forall i :: 0 <= i < |keys| ==> DictFromRow(keys, values)[keys[i]] == values[i]
    decreases |keys|
  {
    if keys != [] {
      var n := |keys|;
      var front := keys[..n - 1];
      DictFromRowPositional(front, values[..n - 1]);
      var m := DictFromRow(keys, values);
      assert m == DictFromRow(front, values[..n - 1])[keys[n - 1] := values[n - 1]];
      forall i | 0 <= i < n
        ensures m[keys[i]] == values[i]
      {
        if i < n - 1 {
          assert front[i] == keys[i] && keys[i] != keys[n - 1];
        }
      }
    }
  }
}
