// pkg/query: the sort and filter parameters of a list request, resolved against an allowlist.
module Query {
  import opened Wrappers
  import opened Text

  datatype Sort = Sort(column: string, desc: bool)

  datatype Filter = Filter(column: string, value: string, partial: bool)

  datatype Options = Options(sorts: seq<Sort>, filters: seq<Filter>)

  datatype FieldSpec = FieldSpec(column: string, sortable: bool, filterable: bool, partial: bool)

  type Schema = map<string, FieldSpec>

  /** url.Values */
  type Values = map<string, seq<string>>

  function Get(values: Values, key: string): string {
    if key in values && |values[key]| > 0 then values[key][0] else ""
  }

  predicate IsWordChar(c: char) { '0' <= c <= '9' || 'A' <= c <= 'Z' || c == '_' || 'a' <= c <= 'z' }

  const OPEN: string := "filter["

  /** The field of a key of the form filter[field], where field is one or more word characters. */
  function FilterField(key: string): Option<string> {
    if |key| > |OPEN| + 1 && OPEN <= key && key[|key| - 1] == ']'
       && (forall i :: |OPEN| <= i < |key| - 1 ==> IsWordChar(key[i]))
    then Some(key[|OPEN|..|key| - 1])
    else None
  }

  /** These keys, and no others, name a filter. */
  lemma FilterKeyIff(key: string, field: string)
    ensures FilterField(key) == Some(field) <==>
            key == "filter[" + field + "]" && field != "" && forall i :: 0 <= i < |field| ==> IsWordChar(field[i])
  {
    hide IsWordChar;
    if key == "filter[" + field + "]" {
      assert key[7..|key| - 1] == field && key[..7] == OPEN;
      assert forall i :: 7 <= i < |key| - 1 ==> key[i] == field[i - 7];
    }
    if FilterField(key) == Some(field) {
      assert key == key[..7] + key[7..|key| - 1] + [key[|key| - 1]];
      assert key == "filter[" + field + "]";
      assert forall i :: 0 <= i < |field| ==> field[i] == key[i + 7];
    }
  }

  // ----------------------------------------------------------- meaning

  function SortOf(raw: string, schema: Schema): seq<Sort> {
    var trimmed := TrimSpace(raw);
    var desc := trimmed != "" && trimmed[0] == '-';
    var field := if desc then trimmed[1..] else trimmed;
    if field != "" && field in schema && schema[field].sortable then [Sort(schema[field].column, desc)] else []
  }

  function SortsOf(raws: seq<string>, schema: Schema): seq<Sort> {
    if raws == [] then [] else SortOf(raws[0], schema) + SortsOf(raws[1..], schema)
  }

  function FilterOf(key: string, values: Values, schema: Schema): Option<Filter> {
    match FilterField(key)
    case None => None
    case Some(field) =>
      if Get(values, key) != "" && field in schema && schema[field].filterable
      then Some(Filter(schema[field].column, Get(values, key), schema[field].partial))
      else None
  }

  lemma {:induction false} SortsOfLast(raws: seq<string>, last: string, schema: Schema)
    ensures SortsOf(raws + [last], schema) == SortsOf(raws, schema) + SortOf(last, schema)
  {
    hide SortOf;
    if raws == [] {
      assert (raws + [last])[1..] == [];
    } else {
      assert (raws + [last])[1..] == raws[1..] + [last];
      SortsOfLast(raws[1..], last, schema);
    }
  }

  /** The filters found under these keys, whatever their order. */
  ghost predicate FiltersOf(filters: seq<Filter>, keys: seq<string>, values: Values, schema: Schema) {
    forall f :: f in filters <==> exists key :: key in keys && FilterOf(key, values, schema) == Some(f)
  }

  lemma FiltersOfLast(filters: seq<Filter>, keys: seq<string>, last: string, values: Values, schema: Schema)
    requires FiltersOf(filters, keys, values, schema)
    ensures var f := FilterOf(last, values, schema);
            FiltersOf(if f.Some? then filters + [f.value] else filters, keys + [last], values, schema)
  {
    hide FilterOf;
    var found := FilterOf(last, values, schema);
    var filters' := if found.Some? then filters + [found.value] else filters;
    forall f ensures f in filters' <==> exists key :: key in keys + [last] && FilterOf(key, values, schema) == Some(f) {
      if f in filters {
        var key :| key in keys && FilterOf(key, values, schema) == Some(f);
        assert key in keys + [last];
      }
      if found == Some(f) { assert last in keys + [last]; }
    }
  }

  /** The first loop of query.Parse. */
  method ParseSorts(values: Values, schema: Schema) returns (sorts: seq<Sort>)
    ensures sorts == SortsOf(Split(Get(values, "sort"), ','), schema)
  {
    sorts := [];
    var raws := Split(Get(values, "sort"), ',');
    hide Split, Get, TrimSpace;
    for i := 0 to |raws|
      invariant sorts == SortsOf(raws[..i], schema)
    {
      assert raws[..i + 1] == raws[..i] + [raws[i]];
      SortsOfLast(raws[..i], raws[i], schema);
      var field := TrimSpace(raws[i]);
      var desc := false;
      if "-" <= field {
        desc := true;
        field := field[1..];
      }
      if field == "" { continue; }
      if field in schema && schema[field].sortable {
        sorts := sorts + [Sort(schema[field].column, desc)];
      }
    }
    assert raws[..|raws|] == raws;
  }

  /** The second loop of query.Parse; `keys` is the order in which Go happens to range over the map. */
  method ParseFilters(values: Values, schema: Schema, keys: seq<string>) returns (filters: seq<Filter>)
    requires forall key :: key in keys <==> key in values
    ensures FiltersOf(filters, keys, values, schema)
  {
    filters := [];
    for i := 0 to |keys|
      invariant FiltersOf(filters, keys[..i], values, schema)
    {
      assert keys[..i + 1] == keys[..i] + [keys[i]];
      assert keys[i] in keys;
      FiltersOfLast(filters, keys[..i], keys[i], values, schema);
      hide FiltersOf, FilterField;
      var m := FilterField(keys[i]);
      if m.None? || |values[keys[i]]| == 0 { continue; }
      var value := values[keys[i]][0];
      if value == "" { continue; }
      if m.value in schema && schema[m.value].filterable {
        filters := filters + [Filter(schema[m.value].column, value, schema[m.value].partial)];
      }
    }
    assert keys[..|keys|] == keys;
  }

  /** query.Parse */
  method Parse(values: Values, schema: Schema, keys: seq<string>) returns (opts: Options)
    requires forall key :: key in keys <==> key in values
    ensures opts.sorts == SortsOf(Split(Get(values, "sort"), ','), schema)
    ensures FiltersOf(opts.filters, keys, values, schema)
  {
    var sorts := ParseSorts(values, schema);
    var filters := ParseFilters(values, schema, keys);
    opts := Options(sorts, filters);
  }

  // ------------------------------------------------------------ guarantees

  /** Only allowlisted columns get through, each for a use its field permits. */
  lemma {:induction false} SortsAreAllowed(raws: seq<string>, schema: Schema, s: Sort)
    requires s in SortsOf(raws, schema)
    ensures exists field :: field in schema && schema[field].sortable && schema[field].column == s.column
  {
    if s in SortOf(raws[0], schema) {
      var trimmed := TrimSpace(raws[0]);
      assert (if s.desc then trimmed[1..] else trimmed) in schema;
    } else {
      SortsAreAllowed(raws[1..], schema, s);
    }
  }

  /** ?filter[field]=v was given, and field may be filtered by. */
  ghost predicate AskedFor(values: Values, schema: Schema, field: string, v: string) {
    && field != "" && (forall i :: 0 <= i < |field| ==> IsWordChar(field[i]))
    && field in schema && schema[field].filterable
    && var key := "filter[" + field + "]"; key in values && values[key] != [] && values[key][0] == v != ""
  }

  function Resolved(schema: Schema, field: string, v: string): Filter
    requires field in schema
  {
    Filter(schema[field].column, v, schema[field].partial)
  }

  /** The filters are those asked for by a parameter of the form filter[field]=v, and no others. */
  lemma FiltersAreThoseAskedFor(filters: seq<Filter>, keys: seq<string>, values: Values, schema: Schema)
    requires FiltersOf(filters, keys, values, schema) && forall key :: key in keys <==> key in values
    ensures forall f :: f in filters <==>
              (exists field, v :: AskedFor(values, schema, field, v) && f == Resolved(schema, field, v))
  {
    hide IsWordChar;
    forall f
      ensures f in filters <==>
              (exists field, v :: AskedFor(values, schema, field, v) && f == Resolved(schema, field, v))
    {
      if f in filters {
        var key :| key in keys && FilterOf(key, values, schema) == Some(f);
        FilterKeyIff(key, FilterField(key).value);
        assert AskedFor(values, schema, FilterField(key).value, f.value);
      }
      if field, v :| AskedFor(values, schema, field, v) && f == Resolved(schema, field, v) {
        FilterKeyIff("filter[" + field + "]", field);
        assert FilterOf("filter[" + field + "]", values, schema) == Some(f);
      }
    }
  }

  /** Every iteration order of the parameter map yields the same set of filters. */
  lemma FilterOrderIsIrrelevant(f1: seq<Filter>, f2: seq<Filter>, keys1: seq<string>, keys2: seq<string>,
                                values: Values, schema: Schema)
    requires FiltersOf(f1, keys1, values, schema) && FiltersOf(f2, keys2, values, schema)
    requires forall key :: key in keys1 <==> key in keys2
    ensures forall f :: f in f1 <==> f in f2
  {
    forall f | f in f1 ensures f in f2 {
      var key :| key in keys1 && FilterOf(key, values, schema) == Some(f);
      assert key in keys2;
    }
    forall f | f in f2 ensures f in f1 {
      var key :| key in keys2 && FilterOf(key, values, schema) == Some(f);
      assert key in keys1;
    }
  }

  // ------------------------------------------------------------- round trip

  /** One part of a ?sort= value: a field's name, with a leading '-' to descend, and white space around. */
  datatype Directive = Directive(before: string, desc: bool, field: string, after: string)

  function Asked(d: Directive): string { (if d.desc then "-" else "") + d.field }

  function Render(d: Directive): string { d.before + Asked(d) + d.after }

  function RenderAll(ds: seq<Directive>): (parts: seq<string>)
    ensures |parts| == |ds| && forall i :: 0 <= i < |ds| ==> parts[i] == Render(ds[i])
  {
    if ds == [] then [] else [Render(ds[0])] + RenderAll(ds[1..])
  }

  /** The ?sort= value that asks for these directives in this order. */
  function RenderSort(ds: seq<Directive>): string { if ds == [] then "" else Join(RenderAll(ds), ',') }

  /** A directive that can be written down: no comma, no outer space or leading '-' of the field's own. */
  predicate Writable(d: Directive) {
    && AllSpace(d.before) && AllSpace(d.after) && ',' !in d.field
    && (Asked(d) != "" ==> !IsSpace(Asked(d)[0]) && !IsSpace(Asked(d)[|Asked(d)| - 1]))
    && (!d.desc && d.field != "" ==> d.field[0] != '-')
  }

  /** What a directive asks for, if its field may be sorted by. */
  function ResolveOne(d: Directive, schema: Schema): seq<Sort> {
    if d.field == "" || d.field !in schema || !schema[d.field].sortable then []
    else [Sort(schema[d.field].column, d.desc)]
  }

  function Resolve(ds: seq<Directive>, schema: Schema): seq<Sort> {
    if ds == [] then [] else ResolveOne(ds[0], schema) + Resolve(ds[1..], schema)
  }

  lemma RenderIsTrimmed(d: Directive)
    requires Writable(d)
    ensures TrimSpace(Render(d)) == Asked(d) && ',' !in Render(d)
  {
    TrimUndoesPadding(d.before, Asked(d), d.after);
    assert !IsSpace(',');
    hide TrimSpace, IsSpace;
  }

  lemma AskedIsRead(d: Directive)
    requires Writable(d)
    ensures var t := Asked(d);
            && (d.desc <==> t != "" && t[0] == '-') && (d.desc ==> t[1..] == d.field) && (!d.desc ==> t == d.field)
  {
    hide AllSpace, IsSpace;
    assert !d.desc ==> Asked(d) == d.field;
  }

  lemma RenderedIsRead(d: Directive, schema: Schema)
    requires Writable(d)
    ensures SortOf(Render(d), schema) == ResolveOne(d, schema)
  {
    RenderIsTrimmed(d);
    AskedIsRead(d);
    hide Writable, TrimSpace, Asked, Render;
  }

  lemma {:induction false} RenderedAreRead(ds: seq<Directive>, schema: Schema)
    requires forall d :: d in ds ==> Writable(d)
    ensures SortsOf(RenderAll(ds), schema) == Resolve(ds, schema)
  {
    hide SortOf, ResolveOne, Writable, Render;
    if ds != [] {
      RenderedIsRead(ds[0], schema);
      assert RenderAll(ds)[1..] == RenderAll(ds[1..]);
      RenderedAreRead(ds[1..], schema);
    }
  }

  /** Parse undoes rendering: of the fields that may be sorted by, the same columns, directions and priorities come
      back; other fields, empty parts and white space make no difference. */
  lemma ParseUndoesRender(ds: seq<Directive>, schema: Schema)
    requires forall d :: d in ds ==> Writable(d)
    ensures SortsOf(Split(RenderSort(ds), ','), schema) == Resolve(ds, schema)
  {
    if ds == [] {
      assert SortsOf([""], schema) == SortOf("", schema) + SortsOf([""][1..], schema);
    } else {
      hide Writable, SortOf;
      forall i | 0 <= i < |ds| ensures ',' !in RenderAll(ds)[i] { RenderIsTrimmed(ds[i]); }
      SplitOfJoin(RenderAll(ds), ',');
      RenderedAreRead(ds, schema);
    }
  }

  function DirectiveOf(before: string, text: string, after: string): (d: Directive)
    ensures Asked(d) == text
  {
    if text != "" && text[0] == '-' then Directive(before, true, text[1..], after)
    else Directive(before, false, text, after)
  }

  lemma DirectiveIsWritable(before: string, text: string, after: string)
    requires AllSpace(before) && AllSpace(after) && ',' !in text
    requires text == "" || (!IsSpace(text[0]) && !IsSpace(text[|text| - 1]))
    ensures Writable(DirectiveOf(before, text, after))
  {
    hide AllSpace, IsSpace;
  }

  /** A part without a comma is a directive written down. */
  lemma PartIsWritten(part: string) returns (d: Directive)
    requires ',' !in part
    ensures Writable(d) && Render(d) == part
  {
    var before, t, after := TrimmedOff(part);
    DirectiveIsWritable(before, t, after);
    d := DirectiveOf(before, t, after);
    hide Writable, Asked, AllSpace;
  }

  lemma RenderOneMore(d: Directive, ds: seq<Directive>)
    ensures RenderSort([d]) == Render(d)
    ensures ds != [] ==> RenderSort([d] + ds) == Render(d) + [','] + RenderSort(ds)
  {
    hide Render;
    assert RenderAll([d]) == [Render(d)];
    var all := [d] + ds;
    assert all[1..] == ds && RenderAll(all) == [Render(d)] + RenderAll(ds);
    assert RenderAll(all)[1..] == RenderAll(ds);
  }

  lemma CutAtComma(value: string) returns (first: string, rest: string)
    ensures ',' !in first && (value == first || (value == first + [','] + rest && |rest| < |value|))
  {
    FirstPart(value, ',');
    first := Split(value, ',')[0];
    rest := if first == value then "" else value[|first| + 1..];
  }

  /** And every ?sort= value is some directives written down, so nothing else can be asked for. */
  lemma {:induction false} EveryValueIsWritten(value: string) returns (ds: seq<Directive>)
    ensures ds != [] && (forall d :: d in ds ==> Writable(d)) && RenderSort(ds) == value
    decreases |value|
  {
    hide *;
    var first, rest := CutAtComma(value);
    var d := PartIsWritten(first);
    RenderOneMore(d, []);
    ds := [d];
    if first != value {
      var more := EveryValueIsWritten(rest);
      RenderOneMore(d, more);
      ds := [d] + more;
    }
  }
}
