/**
 * The Field Merger of MongoDataSource._do_get_bars: shard documents, each a
 * declared length `_l` plus fields, are stitched into one dict of per-field
 * lists. The dict is ordered (Python dicts keep insertion order), so it is a
 * sequence of named columns here.
 *
 * `Merged` is the loop exactly as written; `AlignedMerged` is the merge the
 * padding was meant to perform (see the counter-example lemmas at the end).
 */
module FieldMerger {
  import opened Wrappers

  /** A document value: a Python list, or anything else (a scalar). */
  datatype FieldValue<T> = List(items: seq<T>) | Scalar(value: T)

  /** A shard document once `_l` has been popped: `_l` and the remaining fields in dict order. */
  datatype Doc<T> = Doc(declared: int, fields: seq<(string, FieldValue<T>)>)

  /** One entry of the merged dict: a field name and its list. */
  datatype Column<T> = Column(name: string, values: seq<T>)

  /** The state of the merge loop: the dict of lists and the running total `l`. */
  datatype Merge<T> = Merge(columns: seq<Column<T>>, total: int)

  /**
   * A value is merged only if it is a list whose length is the document's
   * `_l`: a scalar never is, and neither is anything when `_l` is negative.
   */
  predicate Qualifies<T>(v: FieldValue<T>, declared: int): (b: bool)
    ensures b ==> v.List? && declared >= 0
  {
    v.List? && |v.items| == declared
  }

  /** `[x] * n`: empty when n is not positive. */
  function Repeat<T>(x: T, n: int): (r: seq<T>)
    ensures |r| == if n < 0 then 0 else n
    ensures forall i :: 0 <= i < |r| ==> r[i] == x
  {
    seq(if n < 0 then 0 else n, _ => x)
  }

  lemma RepeatAdd<T>(x: T, a: int, b: int)
    requires a >= 0 && b >= 0
    ensures Repeat(x, a) + Repeat(x, b) == Repeat(x, a + b)
  {
  }

  // ---------------------------------------------------------------- columns

  function Names<T>(cols: seq<Column<T>>): seq<string> {
    seq(|cols|, i requires 0 <= i < |cols| => cols[i].name)
  }

  function NameSet<T>(cols: seq<Column<T>>): set<string> {
    set i | 0 <= i < |cols| :: cols[i].name
  }

  predicate DistinctNames<T>(cols: seq<Column<T>>) {
    forall i, j :: 0 <= i < j < |cols| ==> cols[i].name != cols[j].name
  }

  /** Position of the first occurrence of `name`, or |names| when absent. */
  function IndexOf(names: seq<string>, name: string): (i: nat)
    ensures i <= |names|
    ensures i < |names| ==> names[i] == name
    ensures forall j :: 0 <= j < i ==> names[j] != name
    decreases |names|
  {
    if names == [] then 0
    else if names[0] == name then 0
    else 1 + IndexOf(names[1..], name)
  }

  /** Dict lookup: the position of the column called `name`, or |cols|. */
  function Find<T>(cols: seq<Column<T>>, name: string): (i: nat)
    ensures i <= |cols|
    ensures i < |cols| <==> name in NameSet(cols)
    ensures i < |cols| ==> cols[i].name == name
    ensures forall j :: 0 <= j < i ==> cols[j].name != name
  {
    NamesIndex(cols, name);
    IndexOf(Names(cols), name)
  }

  lemma NamesIndex<T>(cols: seq<Column<T>>, name: string)
    ensures var i := IndexOf(Names(cols), name);
      && (i < |cols| <==> name in NameSet(cols))
      && (i < |cols| ==> cols[i].name == name)
      && (forall j :: 0 <= j < i ==> cols[j].name != name)
  {
    var i := IndexOf(Names(cols), name);
    assert forall j :: 0 <= j < |cols| ==> Names(cols)[j] == cols[j].name;
  }

  /** The list the dict holds under `name`, empty when there is none. */
  function ValuesOf<T>(cols: seq<Column<T>>, name: string): seq<T> {
    var i := Find(cols, name);
    if i < |cols| then cols[i].values else []
  }

  lemma ValuesOfAt<T>(cols: seq<Column<T>>, i: nat)
    requires DistinctNames(cols) && i < |cols|
    ensures ValuesOf(cols, cols[i].name) == cols[i].values
  {
  }

  lemma SameNames<T>(a: seq<Column<T>>, b: seq<Column<T>>)
    requires |a| == |b| && forall i :: 0 <= i < |a| ==> a[i].name == b[i].name
    ensures Names(a) == Names(b) && NameSet(a) == NameSet(b)
    ensures forall name :: Find(a, name) == Find(b, name)
  {
    assert Names(a) == Names(b);
  }

  lemma NameSetEmpty<T>(cols: seq<Column<T>>)
    ensures NameSet(cols) == {} <==> cols == []
  {
    if cols != [] {
      assert cols[0].name in NameSet(cols);
    }
  }

  lemma NameSetSnoc<T>(cols: seq<Column<T>>, c: Column<T>)
    ensures NameSet(cols + [c]) == NameSet(cols) + {c.name}
  {
    var r := cols + [c];
    assert forall j :: 0 <= j < |cols| ==> r[j] == cols[j];
    assert r[|cols|] == c;
  }

  /** `columns.setdefault(name, seed).extend(vals)`. */
  function Append<T>(cols: seq<Column<T>>, name: string, seed: seq<T>, vals: seq<T>): (r: seq<Column<T>>)
    ensures DistinctNames(cols) ==> DistinctNames(r)
    ensures NameSet(r) == NameSet(cols) + {name}
    ensures |cols| <= |r|
    ensures forall i :: 0 <= i < |cols| ==> r[i].name == cols[i].name
    ensures forall i :: |cols| <= i < |r| ==> r[i].name == name
    ensures ValuesOf(r, name) == (if name in NameSet(cols) then ValuesOf(cols, name) else seed) + vals
    ensures forall k :: k != name ==> ValuesOf(r, k) == ValuesOf(cols, k)
  {
    var i := Find(cols, name);
    if i < |cols| then
      ExtendExisting(cols, i, vals);
      cols[i := Column(name, cols[i].values + vals)]
    else
      ExtendNew(cols, Column(name, seed + vals));
      cols + [Column(name, seed + vals)]
  }

  lemma ExtendExisting<T>(cols: seq<Column<T>>, i: nat, vals: seq<T>)
    requires i < |cols| && i == Find(cols, cols[i].name)
    ensures var name := cols[i].name; var r := cols[i := Column(name, cols[i].values + vals)];
      && (DistinctNames(cols) ==> DistinctNames(r))
      && NameSet(r) == NameSet(cols)
      && Find(r, name) == i
      && forall k :: k != name ==> ValuesOf(r, k) == ValuesOf(cols, k)
  {
    var name := cols[i].name;
    var r := cols[i := Column(name, cols[i].values + vals)];
    SameNames(cols, r);
  }

  lemma ExtendNew<T>(cols: seq<Column<T>>, c: Column<T>)
    requires c.name !in NameSet(cols)
    ensures var r := cols + [c];
      && (DistinctNames(cols) ==> DistinctNames(r))
      && NameSet(r) == NameSet(cols) + {c.name}
      && Find(r, c.name) == |cols|
      && forall k :: k != c.name ==> ValuesOf(r, k) == ValuesOf(cols, k)
  {
    var r := cols + [c];
    NameSetSnoc(cols, c);
    assert forall j :: 0 <= j < |cols| ==> r[j] == cols[j];
    forall k | k != c.name ensures ValuesOf(r, k) == ValuesOf(cols, k) {
      var p, q := Find(cols, k), Find(r, k);
      assert r[|cols|] == c;
      if p < |cols| {
        assert r[p] == cols[p];
      }
      if q < |cols| {
        assert r[q] == cols[q];
      }
    }
  }

  // ---------------------------------------------------------------- one document

  /** The field called `k` in a document (for a dict, the last binding wins). */
  function Lookup<T>(fields: seq<(string, FieldValue<T>)>, k: string): Option<FieldValue<T>>
    decreases |fields|
  {
    if fields == [] then None
    else if fields[|fields| - 1].0 == k then Some(fields[|fields| - 1].1)
    else Lookup(fields[..|fields| - 1], k)
  }

  predicate DistinctFieldNames<T>(fields: seq<(string, FieldValue<T>)>) {
    forall i, j :: 0 <= i < j < |fields| ==> fields[i].0 != fields[j].0
  }

  function FieldNames<T>(fields: seq<(string, FieldValue<T>)>): set<string> {
    set i | 0 <= i < |fields| :: fields[i].0
  }

  /** The names of the fields that a document of length `declared` contributes. */
  function QualifyingNames<T>(fields: seq<(string, FieldValue<T>)>, declared: int): set<string> {
    set i | 0 <= i < |fields| && Qualifies(fields[i].1, declared) :: fields[i].0
  }

  /** What a document adds to the list for `k`: its list when it qualifies, otherwise nothing. */
  function Gain<T>(d: Doc<T>, k: string): seq<T> {
    match Lookup(d.fields, k)
    case Some(v) => if Qualifies(v, d.declared) then v.items else []
    case None => []
  }

  /**
   * Lines 45-47 over the first |fields| fields: every list of length `declared` is
   * appended to its column (a new column starts from `seed`); nothing else is touched.
   */
  function ExtendFields<T>(cols: seq<Column<T>>, fields: seq<(string, FieldValue<T>)>, declared: int, seed: seq<T>)
    : (r: seq<Column<T>>)
    ensures DistinctNames(cols) ==> DistinctNames(r)
    ensures NameSet(r) == NameSet(cols) + QualifyingNames(fields, declared)
    ensures |cols| <= |r|
    ensures forall i :: 0 <= i < |cols| ==> r[i].name == cols[i].name
    decreases |fields|
  {
    if fields == [] then cols
    else
      var n := |fields| - 1;
      var before := ExtendFields(cols, fields[..n], declared, seed);
      assert QualifyingNames(fields, declared) == QualifyingNames(fields[..n], declared)
        + (if Qualifies(fields[n].1, declared) then {fields[n].0} else {}) by {
        assert fields == fields[..n] + [fields[n]];
      }
      if Qualifies(fields[n].1, declared) then Append(before, fields[n].0, seed, fields[n].1.items)
      else before
  }

  lemma QualifyingNamesSnoc<T>(fields: seq<(string, FieldValue<T>)>, declared: int)
    requires fields != []
    ensures var n := |fields| - 1;
      QualifyingNames(fields, declared) == QualifyingNames(fields[..n], declared)
        + (if Qualifies(fields[n].1, declared) then {fields[n].0} else {})
  {
    var n := |fields| - 1;
    assert forall j :: 0 <= j < n ==> fields[..n][j] == fields[j];
  }

  /** In a dict each name is bound once: the last field's name is not among the earlier ones. */
  lemma LastNameFresh<T>(fields: seq<(string, FieldValue<T>)>, declared: int)
    requires fields != [] && DistinctFieldNames(fields)
    ensures var n := |fields| - 1;
      Lookup(fields[..n], fields[n].0) == None && fields[n].0 !in QualifyingNames(fields[..n], declared)
  {
    var n := |fields| - 1;
    assert fields[n].0 !in FieldNames(fields[..n]);
    LookupAbsent(fields[..n], fields[n].0);
  }

  /** The column for `k` after one document: its old list (or the seed, if the document creates it) plus the document's gain. */
  lemma {:induction false} ExtendFieldsValues<T>(cols: seq<Column<T>>, d: Doc<T>, seed: seq<T>, k: string)
    requires DistinctFieldNames(d.fields)
    ensures ValuesOf(ExtendFields(cols, d.fields, d.declared, seed), k)
      == (if k !in NameSet(cols) && k in QualifyingNames(d.fields, d.declared) then seed else ValuesOf(cols, k)) + Gain(d, k)
    decreases |d.fields|
  {
    if d.fields != [] {
      var n := |d.fields| - 1;
      ExtendFieldsValues(cols, Doc(d.declared, d.fields[..n]), seed, k);
      if d.fields[n].0 == k {
        ExtendLastNamed(cols, d, seed);
      } else {
        ExtendLastOther(cols, d, seed, k);
      }
    }
  }

  lemma ExtendLastNamed<T>(cols: seq<Column<T>>, d: Doc<T>, seed: seq<T>)
    requires d.fields != [] && DistinctFieldNames(d.fields)
    requires var n := |d.fields| - 1; var k := d.fields[n].0;
      ValuesOf(ExtendFields(cols, d.fields[..n], d.declared, seed), k)
      == (if k !in NameSet(cols) && k in QualifyingNames(d.fields[..n], d.declared) then seed else ValuesOf(cols, k))
         + Gain(Doc(d.declared, d.fields[..n]), k)
    ensures var n := |d.fields| - 1; var k := d.fields[n].0;
      ValuesOf(ExtendFields(cols, d.fields, d.declared, seed), k)
      == (if k !in NameSet(cols) && k in QualifyingNames(d.fields, d.declared) then seed else ValuesOf(cols, k)) + Gain(d, k)
  {
    var n := |d.fields| - 1;
    var (k, v) := d.fields[n];
    var before := ExtendFields(cols, d.fields[..n], d.declared, seed);
    QualifyingNamesSnoc(d.fields, d.declared);
    LastNameFresh(d.fields, d.declared);
    assert k in NameSet(before) <==> k in NameSet(cols);
    assert Gain(Doc(d.declared, d.fields[..n]), k) == [];
    assert ValuesOf(before, k) == ValuesOf(cols, k);
  }

  lemma ExtendLastOther<T>(cols: seq<Column<T>>, d: Doc<T>, seed: seq<T>, k: string)
    requires d.fields != [] && DistinctFieldNames(d.fields) && d.fields[|d.fields| - 1].0 != k
    requires var n := |d.fields| - 1;
      ValuesOf(ExtendFields(cols, d.fields[..n], d.declared, seed), k)
      == (if k !in NameSet(cols) && k in QualifyingNames(d.fields[..n], d.declared) then seed else ValuesOf(cols, k))
         + Gain(Doc(d.declared, d.fields[..n]), k)
    ensures ValuesOf(ExtendFields(cols, d.fields, d.declared, seed), k)
      == (if k !in NameSet(cols) && k in QualifyingNames(d.fields, d.declared) then seed else ValuesOf(cols, k)) + Gain(d, k)
  {
    var n := |d.fields| - 1;
    QualifyingNamesSnoc(d.fields, d.declared);
    assert Gain(d, k) == Gain(Doc(d.declared, d.fields[..n]), k);
  }

  lemma {:induction false} LookupAbsent<T>(fields: seq<(string, FieldValue<T>)>, k: string)
    requires k !in FieldNames(fields)
    ensures Lookup(fields, k) == None
    decreases |fields|
  {
    if fields != [] {
      var n := |fields| - 1;
      assert fields[n].0 in FieldNames(fields);
      assert FieldNames(fields[..n]) <= FieldNames(fields) by {
        forall j | 0 <= j < n ensures fields[..n][j].0 in FieldNames(fields) {
          assert fields[..n][j] == fields[j];
        }
      }
      LookupAbsent(fields[..n], k);
    }
  }

  // ---------------------------------------------------------------- padding and the whole loop

  /**
   * Lines 48-50 as written: every list whose length is not the running total
   * gets `[fill] * total` appended, i.e. `total` copies, not `total - len`.
   */
  function PadColumns<T>(cols: seq<Column<T>>, total: int, fill: T): (r: seq<Column<T>>)
    ensures |r| == |cols| && forall i :: 0 <= i < |cols| ==> r[i].name == cols[i].name
  {
    seq(|cols|, i requires 0 <= i < |cols| =>
      if |cols[i].values| != total then Column(cols[i].name, cols[i].values + Repeat(fill, total)) else cols[i])
  }

  /**
   * Padding leaves the lists of the running total's length untouched; every
   * other list keeps its elements and gains exactly `total` copies of `fill`
   * (none when `total` is negative), and nothing else.
   */
  lemma PaddingEffect<T>(cols: seq<Column<T>>, total: int, fill: T, i: nat)
    requires i < |cols|
    ensures var r := PadColumns(cols, total, fill);
      && r[i].name == cols[i].name
      && (|cols[i].values| == total ==> r[i] == cols[i])
      && (|cols[i].values| != total ==>
            |r[i].values| == |cols[i].values| + (if total < 0 then 0 else total))
      && r[i].values[..|cols[i].values|] == cols[i].values
      && forall j :: |cols[i].values| <= j < |r[i].values| ==> r[i].values[j] == fill
  {
  }

  /**
   * One pass of the outer loop: `l += _l`, extend the qualifying lists, pad.
   * The total grows by `_l`; the names grow by exactly the qualifying fields,
   * stay distinct, and the existing columns keep their places.
   */
  function Step<T>(m: Merge<T>, d: Doc<T>, fill: T): (r: Merge<T>)
    ensures r.total == m.total + d.declared
    ensures NameSet(r.columns) == NameSet(m.columns) + QualifyingNames(d.fields, d.declared)
    ensures DistinctNames(m.columns) ==> DistinctNames(r.columns)
    ensures |m.columns| <= |r.columns| && forall i :: 0 <= i < |m.columns| ==> r.columns[i].name == m.columns[i].name
  {
    var total := m.total + d.declared;
    var e := ExtendFields(m.columns, d.fields, d.declared, []);
    SameNames(e, PadColumns(e, total, fill));
    Merge(PadColumns(e, total, fill), total)
  }

  /** The dict and `l` after the documents `docs`, in cursor order; `l` is the sum of their `_l`. */
  function Merged<T>(docs: seq<Doc<T>>, fill: T): (r: Merge<T>)
    ensures r.total == SumDeclared(docs)
    decreases |docs|
  {
    if docs == [] then Merge([], 0)
    else
      SumDeclaredSnoc(docs);
      Step(Merged(docs[..|docs| - 1], fill), docs[|docs| - 1], fill)
  }

  /** The sum of the declared lengths `_l`. */
  function SumDeclared<T>(docs: seq<Doc<T>>): int
    decreases |docs|
  {
    if docs == [] then 0 else docs[0].declared + SumDeclared(docs[1..])
  }

  lemma {:induction false} SumDeclaredSnoc<T>(docs: seq<Doc<T>>)
    requires docs != []
    ensures SumDeclared(docs) == SumDeclared(docs[..|docs| - 1]) + docs[|docs| - 1].declared
    decreases |docs|
  {
    if |docs| > 1 {
      var n := |docs| - 1;
      SumDeclaredSnoc(docs[1..]);
      assert docs[1..][..n - 1] == docs[..n][1..];
    }
  }

  /** Every name that some document contributes a qualifying list for. */
  function AllQualifyingNames<T>(docs: seq<Doc<T>>): set<string>
    decreases |docs|
  {
    if docs == [] then {}
    else
      AllQualifyingNames(docs[..|docs| - 1]) + QualifyingNames(docs[|docs| - 1].fields, docs[|docs| - 1].declared)
  }

  /**
   * The merged dict holds one list per name, and exactly the names some
   * document supplied as a list of its `_l` length: scalars and lists of the
   * wrong length never create a column.
   */
  lemma {:induction false} MergedColumnNames<T>(docs: seq<Doc<T>>, fill: T)
    ensures DistinctNames(Merged(docs, fill).columns)
    ensures NameSet(Merged(docs, fill).columns) == AllQualifyingNames(docs)
    decreases |docs|
  {
    if docs != [] {
      var n := |docs| - 1;
      MergedColumnNames(docs[..n], fill);
      var m := Merged(docs[..n], fill);
      var e := ExtendFields(m.columns, docs[n].fields, docs[n].declared, []);
      SameNames(e, PadColumns(e, m.total + docs[n].declared, fill));
    }
  }

  /** Padding leaves a dict whose lists all have the running total's length as it is. */
  lemma PadAligned<T>(cols: seq<Column<T>>, total: int, fill: T)
    requires forall i :: 0 <= i < |cols| ==> |cols[i].values| == total
    ensures PadColumns(cols, total, fill) == cols
  {
  }

  /** Each document's shape in the aligned case: the same field names, each a list of length `_l`. */
  predicate WellFormedDoc<T>(d: Doc<T>, names: set<string>) {
    && DistinctFieldNames(d.fields)
    && FieldNames(d.fields) == names
    && forall j :: 0 <= j < |d.fields| ==> Qualifies(d.fields[j].1, d.declared)
  }

  predicate WellFormed<T>(docs: seq<Doc<T>>, names: set<string>) {
    forall i :: 0 <= i < |docs| ==> WellFormedDoc(docs[i], names)
  }

  /** The in-order concatenation of the lists the documents supply for `k`. */
  function Concat<T>(docs: seq<Doc<T>>, k: string): seq<T>
    decreases |docs|
  {
    if docs == [] then [] else Concat(docs[..|docs| - 1], k) + Gain(docs[|docs| - 1], k)
  }

  lemma {:induction false} ConcatLength<T>(docs: seq<Doc<T>>, names: set<string>, k: string)
    requires WellFormed(docs, names) && k in names
    ensures |Concat(docs, k)| == SumDeclared(docs)
    decreases |docs|
  {
    if docs != [] {
      var n := |docs| - 1;
      assert WellFormed(docs[..n], names) by {
        forall i | 0 <= i < n ensures docs[..n][i] == docs[i] { }
      }
      ConcatLength(docs[..n], names, k);
      SumDeclaredSnoc(docs);
      GainOfPresent(docs[n], k);
    }
  }

  /** A document whose fields all qualify contributes its list for every name it has. */
  lemma GainOfPresent<T>(d: Doc<T>, k: string)
    requires DistinctFieldNames(d.fields) && k in FieldNames(d.fields)
    requires forall j :: 0 <= j < |d.fields| ==> Qualifies(d.fields[j].1, d.declared)
    ensures |Gain(d, k)| == d.declared
  {
    var j :| 0 <= j < |d.fields| && d.fields[j].0 == k;
    LookupAt(d.fields, j);
  }

  lemma {:induction false} LookupAt<T>(fields: seq<(string, FieldValue<T>)>, j: nat)
    requires DistinctFieldNames(fields) && j < |fields|
    ensures Lookup(fields, fields[j].0) == Some(fields[j].1)
    decreases |fields|
  {
    var n := |fields| - 1;
    if j < n {
      assert fields[..n][j] == fields[j];
      LookupAt(fields[..n], j);
    }
  }

  /**
   * When every document carries the same fields, each a list of its `_l`
   * length, the merge never pads: every column is the in-order concatenation
   * of that field's lists and has exactly the running total's length.
   */
  lemma {:induction false} MergedWellFormed<T>(docs: seq<Doc<T>>, names: set<string>, fill: T)
    requires WellFormed(docs, names)
    ensures var m := Merged(docs, fill);
      && (docs != [] ==> NameSet(m.columns) == names)
      && m.total == SumDeclared(docs)
      && forall i :: 0 <= i < |m.columns| ==>
           m.columns[i].values == Concat(docs, m.columns[i].name) && |m.columns[i].values| == m.total
    decreases |docs|, 2
  {
    if docs != [] {
      var n := |docs| - 1;
      PrefixAligned(docs, names, fill);
      var prev := Merged(docs[..n], fill);
      WellFormedExtend(docs, names, prev.columns, prev.total);
      NoPaddingWhenWellFormed(docs, names, fill);
    }
  }

  /**
   * In the aligned case padding changes nothing: after each document's lists
   * are appended, every list already has the running total's length.
   */
  lemma {:induction false} NoPaddingWhenWellFormed<T>(docs: seq<Doc<T>>, names: set<string>, fill: T)
    requires docs != [] && WellFormed(docs, names)
    ensures var n := |docs| - 1;
      var prev := Merged(docs[..n], fill);
      var e := ExtendFields(prev.columns, docs[n].fields, docs[n].declared, []);
      Merged(docs, fill).columns == e
    decreases |docs|, 1
  {
    var n := |docs| - 1;
    PrefixAligned(docs, names, fill);
    var prev := Merged(docs[..n], fill);
    WellFormedExtend(docs, names, prev.columns, prev.total);
    PadAligned(ExtendFields(prev.columns, docs[n].fields, docs[n].declared, []), prev.total + docs[n].declared, fill);
  }

  /** The induction hypothesis of NoPaddingWhenWellFormed, in the form WellFormedExtend takes it. */
  lemma {:induction false} PrefixAligned<T>(docs: seq<Doc<T>>, names: set<string>, fill: T)
    requires docs != [] && WellFormed(docs, names)
    ensures var prev := Merged(docs[..|docs| - 1], fill);
      PrefixMerged(docs, names, prev.columns, prev.total)
    decreases |docs|, 0
  {
    var n := |docs| - 1;
    WellFormedPrefix(docs, names, n);
    MergedWellFormed(docs[..n], names, fill);
    MergedColumnNames(docs[..n], fill);
    assert n == 0 ==> Merged(docs[..n], fill).columns == [];
  }

  /** What the merge of all but the last document looks like in the aligned case. */
  ghost predicate PrefixMerged<T>(docs: seq<Doc<T>>, names: set<string>, prev: seq<Column<T>>, prevTotal: int) {
    && docs != [] && WellFormed(docs, names)
    && DistinctNames(prev)
    && NameSet(prev) == (if |docs| > 1 then names else {})
    && prevTotal == SumDeclared(docs[..|docs| - 1])
    && forall i :: 0 <= i < |prev| ==> prev[i].values == Concat(docs[..|docs| - 1], prev[i].name)
  }

  /** The inductive step of MergedWellFormed: extending by the last document already aligns every list. */
  lemma WellFormedExtend<T>(docs: seq<Doc<T>>, names: set<string>, prev: seq<Column<T>>, prevTotal: int)
    requires PrefixMerged(docs, names, prev, prevTotal)
    ensures var d := docs[|docs| - 1];
      var e := ExtendFields(prev, d.fields, d.declared, []);
      && NameSet(e) == names
      && forall i :: 0 <= i < |e| ==>
           e[i].values == Concat(docs, e[i].name) && |e[i].values| == prevTotal + d.declared
  {
    var d := docs[|docs| - 1];
    var e := ExtendFields(prev, d.fields, d.declared, []);
    WellFormedLastNames(docs, names, prev, prevTotal);
    forall i | 0 <= i < |e|
      ensures e[i].values == Concat(docs, e[i].name) && |e[i].values| == prevTotal + d.declared
    {
      WellFormedColumnAt(docs, names, prev, prevTotal, i);
    }
  }

  lemma WellFormedLastNames<T>(docs: seq<Doc<T>>, names: set<string>, prev: seq<Column<T>>, prevTotal: int)
    requires PrefixMerged(docs, names, prev, prevTotal)
    ensures var d := docs[|docs| - 1];
      var e := ExtendFields(prev, d.fields, d.declared, []);
      DistinctNames(e) && NameSet(e) == names
  {
    var d := docs[|docs| - 1];
    assert WellFormedDoc(d, names);
    AllFieldsQualify(d);
  }

  lemma WellFormedColumnAt<T>(docs: seq<Doc<T>>, names: set<string>, prev: seq<Column<T>>, prevTotal: int, i: nat)
    requires PrefixMerged(docs, names, prev, prevTotal)
    requires var d := docs[|docs| - 1]; i < |ExtendFields(prev, d.fields, d.declared, [])|
    ensures var d := docs[|docs| - 1];
      var e := ExtendFields(prev, d.fields, d.declared, []);
      e[i].values == Concat(docs, e[i].name) && |e[i].values| == prevTotal + d.declared
  {
    var n := |docs| - 1;
    var d := docs[n];
    var e := ExtendFields(prev, d.fields, d.declared, []);
    var k := e[i].name;
    assert WellFormed(docs[..n], names) && WellFormedDoc(d, names) by {
      WellFormedPrefix(docs, names, n);
    }
    assert DistinctNames(e) && NameSet(e) == names by {
      WellFormedLastNames(docs, names, prev, prevTotal);
    }
    assert k in NameSet(prev) ==> ValuesOf(prev, k) == Concat(docs[..n], k) by {
      if k in NameSet(prev) {
        var p := Find(prev, k);
      }
    }
    assert docs[..n] != [] ==> NameSet(prev) == names;
    WellFormedColumn(docs[..n], d, names, prev, e, i);
    SplitLast(docs);
  }

  lemma SplitLast<T>(docs: seq<Doc<T>>)
    requires docs != []
    ensures docs[..|docs| - 1] + [docs[|docs| - 1]] == docs
  {
  }

  lemma WellFormedPrefix<T>(docs: seq<Doc<T>>, names: set<string>, n: nat)
    requires WellFormed(docs, names) && n <= |docs|
    ensures WellFormed(docs[..n], names)
  {
    assert forall i :: 0 <= i < n ==> docs[..n][i] == docs[i];
  }

  lemma AllFieldsQualify<T>(d: Doc<T>)
    requires forall j :: 0 <= j < |d.fields| ==> Qualifies(d.fields[j].1, d.declared)
    ensures QualifyingNames(d.fields, d.declared) == FieldNames(d.fields)
  {
  }

  lemma WellFormedColumn<T>(prefix: seq<Doc<T>>, d: Doc<T>, names: set<string>, prev: seq<Column<T>>, e: seq<Column<T>>, i: nat)
    requires WellFormedDoc(d, names)
    requires WellFormed(prefix, names)
    requires prefix != [] ==> NameSet(prev) == names
    requires e == ExtendFields(prev, d.fields, d.declared, [])
    requires DistinctNames(e) && NameSet(e) == names && i < |e|
    requires e[i].name in NameSet(prev) ==> ValuesOf(prev, e[i].name) == Concat(prefix, e[i].name)
    ensures e[i].values == Concat(prefix + [d], e[i].name)
    ensures |e[i].values| == SumDeclared(prefix) + d.declared
  {
    var k := e[i].name;
    var base := Concat(prefix, k);
    assert e[i].values == ValuesOf(e, k) by { ValuesOfAt(e, i); }
    assert k in FieldNames(d.fields) && k in QualifyingNames(d.fields, d.declared) by {
      AllFieldsQualify(d);
    }
    assert |Gain(d, k)| == d.declared by { GainOfPresent(d, k); }
    assert |base| == SumDeclared(prefix) by { ConcatLength(prefix, names, k); }
    assert Concat(prefix + [d], k) == base + Gain(d, k) by {
      assert (prefix + [d])[..|prefix|] == prefix;
    }
    if k in NameSet(prev) {
      assert ValuesOf(e, k) == ValuesOf(prev, k) + Gain(d, k) by {
        ExtendFieldsValues(prev, d, [], k);
      }
    } else {
      assert prefix == [];
      assert ValuesOf(e, k) == [] + Gain(d, k) by {
        ExtendFieldsValues(prev, d, [], k);
      }
    }
  }

  // ---------------------------------------------------------------- the merge as intended

  /** Lines 48-50 as intended: each list is padded up to the running total, `total - len` copies. */
  function PadColumnsTo<T>(cols: seq<Column<T>>, total: int, fill: T): (r: seq<Column<T>>)
    ensures |r| == |cols| && forall i :: 0 <= i < |cols| ==> r[i].name == cols[i].name
  {
    seq(|cols|, i requires 0 <= i < |cols| =>
      Column(cols[i].name, cols[i].values + Repeat(fill, total - |cols[i].values|)))
  }

  /**
   * One document merged as intended: a list seen for the first time starts
   * from `[fill] * l` for the documents before it, and padding fills up to `l`.
   */
  function AlignedStep<T>(m: Merge<T>, d: Doc<T>, fill: T): (r: Merge<T>)
    ensures r.total == m.total + d.declared
    ensures NameSet(r.columns) == NameSet(m.columns) + QualifyingNames(d.fields, d.declared)
    ensures DistinctNames(m.columns) ==> DistinctNames(r.columns)
    ensures |m.columns| <= |r.columns| && forall i :: 0 <= i < |m.columns| ==> r.columns[i].name == m.columns[i].name
  {
    var total := m.total + d.declared;
    var e := ExtendFields(m.columns, d.fields, d.declared, Repeat(fill, m.total));
    SameNames(e, PadColumnsTo(e, total, fill));
    Merge(PadColumnsTo(e, total, fill), total)
  }

  /** The intended dict and `l` after the documents; `l` is the sum of their `_l`, as in the code. */
  function AlignedMerged<T>(docs: seq<Doc<T>>, fill: T): (r: Merge<T>)
    ensures r.total == SumDeclared(docs)
    decreases |docs|
  {
    if docs == [] then Merge([], 0)
    else
      SumDeclaredSnoc(docs);
      AlignedStep(AlignedMerged(docs[..|docs| - 1], fill), docs[|docs| - 1], fill)
  }

  /** What a document should occupy in the column for `k`: its list if it qualifies, otherwise `_l` fills. */
  function Slot<T>(d: Doc<T>, k: string, fill: T): seq<T> {
    match Lookup(d.fields, k)
    case Some(v) => if Qualifies(v, d.declared) then v.items else Repeat(fill, d.declared)
    case None => Repeat(fill, d.declared)
  }

  /** The column for `k` of an aligned table: the documents' slots, in order. */
  function Expected<T>(docs: seq<Doc<T>>, k: string, fill: T): seq<T>
    decreases |docs|
  {
    if docs == [] then [] else Expected(docs[..|docs| - 1], k, fill) + Slot(docs[|docs| - 1], k, fill)
  }

  /** Documents as a dict can hold them, with a non-negative `_l`. */
  predicate Counted<T>(docs: seq<Doc<T>>) {
    forall i :: 0 <= i < |docs| ==> docs[i].declared >= 0 && DistinctFieldNames(docs[i].fields)
  }

  lemma CountedPrefix<T>(docs: seq<Doc<T>>, n: nat)
    requires Counted(docs) && n <= |docs|
    ensures Counted(docs[..n])
  {
    assert forall i :: 0 <= i < n ==> docs[..n][i] == docs[i];
  }

  /** A name no document has supplied yet is all fill. */
  lemma {:induction false} ExpectedAbsent<T>(docs: seq<Doc<T>>, k: string, fill: T)
    requires Counted(docs) && k !in AllQualifyingNames(docs)
    ensures Expected(docs, k, fill) == Repeat(fill, SumDeclared(docs))
    decreases |docs|
  {
    if docs != [] {
      var n := |docs| - 1;
      CountedPrefix(docs, n);
      ExpectedAbsent(docs[..n], k, fill);
      SumDeclaredSnoc(docs);
      SlotNotQualifying(docs[n], k, fill);
      SumNonNegative(docs[..n]);
      RepeatAdd(fill, SumDeclared(docs[..n]), docs[n].declared);
    }
  }

  lemma SlotNotQualifying<T>(d: Doc<T>, k: string, fill: T)
    requires k !in QualifyingNames(d.fields, d.declared)
    ensures Slot(d, k, fill) == Repeat(fill, d.declared) && Gain(d, k) == []
  {
    LookupQualifying(d.fields, d.declared, k);
  }

  lemma {:induction false} LookupQualifying<T>(fields: seq<(string, FieldValue<T>)>, declared: int, k: string)
    ensures Lookup(fields, k).Some? && Qualifies(Lookup(fields, k).value, declared) ==> k in QualifyingNames(fields, declared)
    decreases |fields|
  {
    if fields != [] {
      var n := |fields| - 1;
      LookupQualifying(fields[..n], declared, k);
      QualifyingNamesSnoc(fields, declared);
    }
  }

  /**
   * The intended merge is aligned for every input: each column has the
   * running total's length, and each document's span in it holds that
   * document's list, or fill when the document has no qualifying list.
   */
  lemma {:induction false} AlignedMergedSpec<T>(docs: seq<Doc<T>>, fill: T)
    requires Counted(docs)
    ensures var m := AlignedMerged(docs, fill);
      && m.total == SumDeclared(docs)
      && DistinctNames(m.columns)
      && NameSet(m.columns) == AllQualifyingNames(docs)
      && forall i :: 0 <= i < |m.columns| ==>
           m.columns[i].values == Expected(docs, m.columns[i].name, fill) && |m.columns[i].values| == m.total
    decreases |docs|
  {
    if docs != [] {
      var n := |docs| - 1;
      CountedPrefix(docs, n);
      AlignedMergedSpec(docs[..n], fill);
      AlignedStepSpec(docs, fill, AlignedMerged(docs[..n], fill));
    }
  }

  /** The inductive step of AlignedMergedSpec: one more document keeps the intended merge aligned. */
  lemma AlignedStepSpec<T>(docs: seq<Doc<T>>, fill: T, prev: Merge<T>)
    requires docs != [] && Counted(docs)
    requires prev.total == SumDeclared(docs[..|docs| - 1])
    requires DistinctNames(prev.columns) && NameSet(prev.columns) == AllQualifyingNames(docs[..|docs| - 1])
    requires forall i :: 0 <= i < |prev.columns| ==> prev.columns[i].values == Expected(docs[..|docs| - 1], prev.columns[i].name, fill)
    ensures var m := AlignedStep(prev, docs[|docs| - 1], fill);
      && m.total == SumDeclared(docs)
      && DistinctNames(m.columns)
      && NameSet(m.columns) == AllQualifyingNames(docs)
      && forall i :: 0 <= i < |m.columns| ==>
           m.columns[i].values == Expected(docs, m.columns[i].name, fill) && |m.columns[i].values| == m.total
  {
    var n := |docs| - 1;
    var d := docs[n];
    var e := ExtendFields(prev.columns, d.fields, d.declared, Repeat(fill, prev.total));
    var total := prev.total + d.declared;
    var r := PadColumnsTo(e, total, fill);
    SumDeclaredSnoc(docs);
    SameNames(e, r);
    forall i | 0 <= i < |r|
      ensures r[i].values == Expected(docs, r[i].name, fill) && |r[i].values| == total
    {
      if e[i].name in NameSet(prev.columns) {
        var p := Find(prev.columns, e[i].name);
      }
      AlignedColumn(docs, fill, prev.columns, prev.total, e, i);
    }
  }

  lemma AlignedColumn<T>(docs: seq<Doc<T>>, fill: T, prev: seq<Column<T>>, prevTotal: int, e: seq<Column<T>>, i: nat)
    requires docs != [] && Counted(docs)
    requires prevTotal == SumDeclared(docs[..|docs| - 1])
    requires NameSet(prev) == AllQualifyingNames(docs[..|docs| - 1])
    requires e == ExtendFields(prev, docs[|docs| - 1].fields, docs[|docs| - 1].declared, Repeat(fill, prevTotal))
    requires DistinctNames(e) && i < |e|
    requires e[i].name in NameSet(prev) ==> ValuesOf(prev, e[i].name) == Expected(docs[..|docs| - 1], e[i].name, fill)
    ensures var r := PadColumnsTo(e, prevTotal + docs[|docs| - 1].declared, fill);
      r[i].values == Expected(docs, r[i].name, fill) && |r[i].values| == prevTotal + docs[|docs| - 1].declared
  {
    var n := |docs| - 1;
    var d := docs[n];
    var k := e[i].name;
    var total := prevTotal + d.declared;
    var v := e[i].values;
    CountedPrefix(docs, n);
    assert prevTotal >= 0 by { SumNonNegative(docs[..n]); }
    assert v == ValuesOf(e, k) by { ValuesOfAt(e, i); }
    assert k in NameSet(prev) || k in QualifyingNames(d.fields, d.declared) by { assert k in NameSet(e); }
    assert |Expected(docs[..n], k, fill)| == prevTotal
      && (k !in NameSet(prev) ==> Expected(docs[..n], k, fill) == Repeat(fill, prevTotal)) by {
      ExpectedLength(docs[..n], k, fill);
      if k !in NameSet(prev) {
        ExpectedAbsent(docs[..n], k, fill);
      }
    }
    assert v + Repeat(fill, total - |v|) == Expected(docs, k, fill) by {
      AlignedValues(docs, fill, prev, prevTotal, k);
    }
    assert |Expected(docs, k, fill)| == total by {
      ExpectedLength(docs, k, fill);
      SumDeclaredSnoc(docs);
    }
  }

  /** One step of the intended merge, for one name: the extended list, padded, is the expected column. */
  lemma AlignedValues<T>(docs: seq<Doc<T>>, fill: T, prev: seq<Column<T>>, prevTotal: int, k: string)
    requires docs != [] && prevTotal >= 0
    requires var d := docs[|docs| - 1]; d.declared >= 0 && DistinctFieldNames(d.fields)
    requires k in NameSet(prev) ==> ValuesOf(prev, k) == Expected(docs[..|docs| - 1], k, fill)
    requires k !in NameSet(prev) ==> Expected(docs[..|docs| - 1], k, fill) == Repeat(fill, prevTotal)
    requires |Expected(docs[..|docs| - 1], k, fill)| == prevTotal
    ensures var d := docs[|docs| - 1];
      var v := ValuesOf(ExtendFields(prev, d.fields, d.declared, Repeat(fill, prevTotal)), k);
      k in NameSet(prev) || k in QualifyingNames(d.fields, d.declared) ==>
        v + Repeat(fill, prevTotal + d.declared - |v|) == Expected(docs, k, fill)
  {
    var d := docs[|docs| - 1];
    if k in QualifyingNames(d.fields, d.declared) {
      AlignedValuesSupplied(docs, fill, prev, prevTotal, k);
    } else if k in NameSet(prev) {
      AlignedValuesKept(docs, fill, prev, prevTotal, k);
    }
  }

  /** AlignedValues for a name the last document supplies: its list lands right after the earlier slots. */
  lemma AlignedValuesSupplied<T>(docs: seq<Doc<T>>, fill: T, prev: seq<Column<T>>, prevTotal: int, k: string)
    requires docs != [] && prevTotal >= 0
    requires var d := docs[|docs| - 1]; DistinctFieldNames(d.fields) && k in QualifyingNames(d.fields, d.declared)
    requires k in NameSet(prev) ==> ValuesOf(prev, k) == Expected(docs[..|docs| - 1], k, fill)
    requires k !in NameSet(prev) ==> Expected(docs[..|docs| - 1], k, fill) == Repeat(fill, prevTotal)
    requires |Expected(docs[..|docs| - 1], k, fill)| == prevTotal
    ensures var d := docs[|docs| - 1];
      var v := ValuesOf(ExtendFields(prev, d.fields, d.declared, Repeat(fill, prevTotal)), k);
      v + Repeat(fill, prevTotal + d.declared - |v|) == Expected(docs, k, fill)
  {
    var n := |docs| - 1;
    var d := docs[n];
    var base := Expected(docs[..n], k, fill);
    var v := ValuesOf(ExtendFields(prev, d.fields, d.declared, Repeat(fill, prevTotal)), k);
    assert Slot(d, k, fill) == Gain(d, k) && |Gain(d, k)| == d.declared by {
      QualifyingLookup(d.fields, d.declared, k);
    }
    assert v == base + Gain(d, k) by {
      ExtendFieldsValues(prev, d, Repeat(fill, prevTotal), k);
    }
    assert Expected(docs, k, fill) == base + Slot(d, k, fill);
    assert Repeat(fill, prevTotal + d.declared - |v|) == [];
  }

  /** AlignedValues for a name the last document does not supply: padding fills its slot. */
  lemma AlignedValuesKept<T>(docs: seq<Doc<T>>, fill: T, prev: seq<Column<T>>, prevTotal: int, k: string)
    requires docs != [] && prevTotal >= 0
    requires var d := docs[|docs| - 1]; d.declared >= 0 && DistinctFieldNames(d.fields)
    requires k !in QualifyingNames(docs[|docs| - 1].fields, docs[|docs| - 1].declared) && k in NameSet(prev)
    requires ValuesOf(prev, k) == Expected(docs[..|docs| - 1], k, fill)
    requires |Expected(docs[..|docs| - 1], k, fill)| == prevTotal
    ensures var d := docs[|docs| - 1];
      var v := ValuesOf(ExtendFields(prev, d.fields, d.declared, Repeat(fill, prevTotal)), k);
      v + Repeat(fill, prevTotal + d.declared - |v|) == Expected(docs, k, fill)
  {
    var n := |docs| - 1;
    var d := docs[n];
    var base := Expected(docs[..n], k, fill);
    var v := ValuesOf(ExtendFields(prev, d.fields, d.declared, Repeat(fill, prevTotal)), k);
    assert Slot(d, k, fill) == Repeat(fill, d.declared) && Gain(d, k) == [] by {
      SlotNotQualifying(d, k, fill);
    }
    assert v == base by {
      ExtendFieldsValues(prev, d, Repeat(fill, prevTotal), k);
    }
    assert Expected(docs, k, fill) == base + Slot(d, k, fill);
  }

  /** Every expected column spans all the documents. */
  lemma {:induction false} ExpectedLength<T>(docs: seq<Doc<T>>, k: string, fill: T)
    requires Counted(docs)
    ensures |Expected(docs, k, fill)| == SumDeclared(docs)
    decreases |docs|
  {
    if docs != [] {
      var n := |docs| - 1;
      CountedPrefix(docs, n);
      ExpectedLength(docs[..n], k, fill);
      SumDeclaredSnoc(docs);
      match Lookup(docs[n].fields, k)
      case Some(v) =>
      case None =>
    }
  }

  lemma {:induction false} QualifyingLookup<T>(fields: seq<(string, FieldValue<T>)>, declared: int, k: string)
    requires DistinctFieldNames(fields) && k in QualifyingNames(fields, declared)
    ensures Lookup(fields, k).Some? && Qualifies(Lookup(fields, k).value, declared)
  {
    var j :| 0 <= j < |fields| && Qualifies(fields[j].1, declared) && fields[j].0 == k;
    LookupAt(fields, j);
  }

  lemma {:induction false} SumNonNegative<T>(docs: seq<Doc<T>>)
    requires Counted(docs)
    ensures SumDeclared(docs) >= 0
    decreases |docs|
  {
    if docs != [] {
      assert docs[0].declared >= 0;
      assert Counted(docs[1..]) by {
        forall i | 0 <= i < |docs| - 1 ensures docs[1..][i] == docs[i + 1] { }
      }
      SumNonNegative(docs[1..]);
    }
  }

  // ---------------------------------------------------------------- as written versus as intended

  /** With every document well formed, every expected column is the concatenation of the documents' lists. */
  lemma {:induction false} ExpectedIsConcat<T>(docs: seq<Doc<T>>, names: set<string>, k: string, fill: T)
    requires WellFormed(docs, names) && k in names
    ensures Expected(docs, k, fill) == Concat(docs, k)
    decreases |docs|
  {
    if docs != [] {
      var n := |docs| - 1;
      WellFormedPrefix(docs, names, n);
      ExpectedIsConcat(docs[..n], names, k, fill);
      var d := docs[n];
      assert WellFormedDoc(d, names);
      var j :| 0 <= j < |d.fields| && d.fields[j].0 == k;
      LookupAt(d.fields, j);
    }
  }

  /**
   * On well-formed input the loop as written and the intended merge build the
   * same dict (the same names, the same list under each name) and the same `l`:
   * the defect of lines 47 and 50 only shows when a document lacks a field.
   */
  lemma AlignedAgreesWhenWellFormed<T>(docs: seq<Doc<T>>, names: set<string>, fill: T)
    requires WellFormed(docs, names) && Counted(docs)
    ensures var a := AlignedMerged(docs, fill); var m := Merged(docs, fill);
      && a.total == m.total
      && NameSet(a.columns) == NameSet(m.columns)
      && forall k :: ValuesOf(a.columns, k) == ValuesOf(m.columns, k)
  {
    var a := AlignedMerged(docs, fill);
    var m := Merged(docs, fill);
    AlignedMergedSpec(docs, fill);
    MergedWellFormed(docs, names, fill);
    MergedColumnNames(docs, fill);
    forall k
      ensures ValuesOf(a.columns, k) == ValuesOf(m.columns, k)
    {
      if k in NameSet(a.columns) {
        var p := Find(a.columns, k);
        var q := Find(m.columns, k);
        ExpectedIsConcat(docs, names, k, fill);
      }
    }
  }

  /** `setdefault` on a missing name adds a column at the end. */
  lemma AppendNew<T>(cols: seq<Column<T>>, name: string, seed: seq<T>, vals: seq<T>)
    requires name !in NameSet(cols)
    ensures Append(cols, name, seed, vals) == cols + [Column(name, seed + vals)]
  {
  }

  /** `setdefault` on a present name extends that column in place. */
  lemma AppendExisting<T>(cols: seq<Column<T>>, name: string, seed: seq<T>, vals: seq<T>, i: nat)
    requires DistinctNames(cols) && i < |cols| && cols[i].name == name
    ensures Append(cols, name, seed, vals) == cols[i := Column(name, cols[i].values + vals)]
  {
  }

  /** One more field: lines 45-47 for the field appended last. */
  lemma ExtendFieldsSnoc<T>(cols: seq<Column<T>>, fields: seq<(string, FieldValue<T>)>, f: (string, FieldValue<T>), declared: int, seed: seq<T>)
    ensures ExtendFields(cols, fields + [f], declared, seed)
      == if Qualifies(f.1, declared) then Append(ExtendFields(cols, fields, declared, seed), f.0, seed, f.1.items)
         else ExtendFields(cols, fields, declared, seed)
  {
    assert (fields + [f])[..|fields|] == fields;
  }

  /** The merge of a single document that holds only qualifying lists `a` and then `b`. */
  lemma FirstDocument<T>(a: string, x: T, b: string, y: T, fill: T)
    requires a != b
    ensures Merged([Doc(1, [(a, List([x])), (b, List([y]))])], fill) == Merge([Column(a, [x]), Column(b, [y])], 1)
    ensures AlignedMerged([Doc(1, [(a, List([x])), (b, List([y]))])], fill) == Merge([Column(a, [x]), Column(b, [y])], 1)
  {
    var d := Doc(1, [(a, List([x])), (b, List([y]))]);
    var e := [Column(a, [x]), Column(b, [y])];
    TwoFieldsExtend(a, x, b, y);
    assert Repeat(fill, 0) == [];
    OneLongPadding(e, fill);
    assert [d][..0] == [];
  }

  lemma TwoFieldsExtend<T>(a: string, x: T, b: string, y: T)
    requires a != b
    ensures ExtendFields([], [(a, List([x])), (b, List([y]))], 1, []) == [Column(a, [x]), Column(b, [y])]
  {
    var fa: (string, FieldValue<T>) := (a, List([x]));
    var fb: (string, FieldValue<T>) := (b, List([y]));
    var one := [Column(a, [x])];
    FirstFieldExtend(a, x);
    assert ExtendFields([], [fa] + [fb], 1, []) == one + [Column(b, [y])] by {
      ExtendFieldsSnoc([], [fa], fb, 1, []);
      AppendNew(one, b, [], [y]);
      assert [] + [y] == [y];
    }
    assert [fa] + [fb] == [fa, fb];
  }

  lemma FirstFieldExtend<T>(a: string, x: T)
    ensures ExtendFields([], [(a, List([x]))], 1, []) == [Column(a, [x])]
  {
    var fa: (string, FieldValue<T>) := (a, List([x]));
    ExtendFieldsSnoc([], [], fa, 1, []);
    AppendNew<T>([], a, [], [x]);
    assert [] + [x] == [x] && [] + [fa] == [fa];
  }

  /** Columns of one element each are left alone by both paddings at total 1. */
  lemma OneLongPadding<T>(e: seq<Column<T>>, fill: T)
    requires forall i :: 0 <= i < |e| ==> |e[i].values| == 1
    ensures PadColumns(e, 1, fill) == e && PadColumnsTo(e, 1, fill) == e
  {
    PadAligned(e, 1, fill);
    assert Repeat(fill, 0) == [];
    forall i | 0 <= i < |e| ensures e[i].values + Repeat(fill, 1 - |e[i].values|) == e[i].values { }
  }

  /** The merge of a single document that holds one qualifying list. */
  lemma SingleFieldDocument<T>(a: string, x: T, fill: T)
    ensures Merged([Doc(1, [(a, List([x]))])], fill) == Merge([Column(a, [x])], 1)
    ensures AlignedMerged([Doc(1, [(a, List([x]))])], fill) == Merge([Column(a, [x])], 1)
  {
    var fa: (string, FieldValue<T>) := (a, List([x]));
    ExtendFieldsSnoc([], [], fa, 1, []);
    AppendNew<T>([], a, [], [x]);
    assert [] + [x] == [x];
    assert [] + [fa] == [fa];
    assert Repeat(fill, 0) == [];
    assert [Doc(1, [fa])][..0] == [];
    var e := [Column(a, [x])];
    assert ExtendFields([], [fa], 1, Repeat(fill, 0)) == e;
    assert [x] + Repeat(fill, 1 - 1) == [x];
    assert PadColumnsTo(e, 1, fill) == e;
  }

  /** A document with one qualifying list under a name the dict already has extends that list. */
  lemma OneFieldExtend<T>(cols: seq<Column<T>>, a: string, y: T, seed: seq<T>, i: nat)
    requires DistinctNames(cols) && i < |cols| && cols[i].name == a
    ensures ExtendFields(cols, [(a, List([y]))], 1, seed) == cols[i := Column(a, cols[i].values + [y])]
  {
    var fa: (string, FieldValue<T>) := (a, List([y]));
    ExtendFieldsSnoc(cols, [], fa, 1, seed);
    AppendExisting(cols, a, seed, [y], i);
    assert [] + [fa] == [fa];
  }

  /** A document with a list under a known name `a` and then a list under a new name `b`. */
  lemma KnownThenNewExtend<T>(cols: seq<Column<T>>, a: string, y: T, b: string, z: T, seed: seq<T>, i: nat)
    requires DistinctNames(cols) && i < |cols| && cols[i].name == a && b !in NameSet(cols)
    ensures ExtendFields(cols, [(a, List([y])), (b, List([z]))], 1, seed)
      == cols[i := Column(a, cols[i].values + [y])] + [Column(b, seed + [z])]
  {
    var fa: (string, FieldValue<T>) := (a, List([y]));
    var fb: (string, FieldValue<T>) := (b, List([z]));
    var mid := cols[i := Column(a, cols[i].values + [y])];
    OneFieldExtend(cols, a, y, seed, i);
    ExtendFieldsSnoc(cols, [fa], fb, 1, seed);
    assert NameSet(mid) == NameSet(cols) by {
      SameNames(cols, mid);
    }
    AppendNew(mid, b, seed, [z]);
    assert [fa] + [fb] == [fa, fb];
  }

  /** Padding as written on two columns of which only the second is short. */
  lemma PadSecond<T>(x: Column<T>, y: Column<T>, total: int, fill: T)
    requires |x.values| == total && |y.values| != total
    ensures PadColumns([x, y], total, fill) == [x, Column(y.name, y.values + Repeat(fill, total))]
  {
  }

  /** Padding as intended on two columns. */
  lemma PadPairTo<T>(x: Column<T>, y: Column<T>, total: int, fill: T)
    ensures PadColumnsTo([x, y], total, fill)
      == [Column(x.name, x.values + Repeat(fill, total - |x.values|)), Column(y.name, y.values + Repeat(fill, total - |y.values|))]
  {
  }

  /** The second document of the first counter-example, merged as written. */
  lemma OverPaddedAsWritten<T>(a: string, b: string, t1: T, t2: T, c1: T, fill: T)
    requires a != b
    ensures Merged([Doc(1, [(a, List([t1])), (b, List([c1]))]), Doc(1, [(a, List([t2]))])], fill)
      == Merge([Column(a, [t1, t2]), Column(b, [c1, fill, fill])], 2)
  {
    var d1 := Doc(1, [(a, List([t1])), (b, List([c1]))]);
    var d2 := Doc(1, [(a, List([t2]))]);
    FirstDocument(a, t1, b, c1, fill);
    OverPaddedStep(a, b, t1, t2, c1, fill);
    MergedSnoc([d1], d2, fill);
    assert [d1] + [d2] == [d1, d2];
  }

  lemma OverPaddedStep<T>(a: string, b: string, t1: T, t2: T, c1: T, fill: T)
    requires a != b
    ensures Step(Merge([Column(a, [t1]), Column(b, [c1])], 1), Doc(1, [(a, List([t2]))]), fill)
      == Merge([Column(a, [t1, t2]), Column(b, [c1, fill, fill])], 2)
  {
    var first := [Column(a, [t1]), Column(b, [c1])];
    var e := [Column(a, [t1, t2]), Column(b, [c1])];
    OneFieldExtend(first, a, t2, [], 0);
    assert [t1] + [t2] == [t1, t2];
    PadSecond(e[0], e[1], 2, fill);
    assert [c1] + Repeat(fill, 2) == [c1, fill, fill];
  }

  lemma MergedSnoc<T>(docs: seq<Doc<T>>, d: Doc<T>, fill: T)
    ensures Merged(docs + [d], fill) == Step(Merged(docs, fill), d, fill)
    ensures AlignedMerged(docs + [d], fill) == AlignedStep(AlignedMerged(docs, fill), d, fill)
  {
    assert (docs + [d])[..|docs|] == docs;
  }

  /** The second document of the first counter-example, merged as intended. */
  lemma OverPaddedAsIntended<T>(a: string, b: string, t1: T, t2: T, c1: T, fill: T)
    requires a != b
    ensures AlignedMerged([Doc(1, [(a, List([t1])), (b, List([c1]))]), Doc(1, [(a, List([t2]))])], fill)
      == Merge([Column(a, [t1, t2]), Column(b, [c1, fill])], 2)
  {
    var d1 := Doc(1, [(a, List([t1])), (b, List([c1]))]);
    var d2 := Doc(1, [(a, List([t2]))]);
    FirstDocument(a, t1, b, c1, fill);
    OverPaddedAlignedStep(a, b, t1, t2, c1, fill);
    MergedSnoc([d1], d2, fill);
    assert [d1] + [d2] == [d1, d2];
  }

  lemma OverPaddedAlignedStep<T>(a: string, b: string, t1: T, t2: T, c1: T, fill: T)
    requires a != b
    ensures AlignedStep(Merge([Column(a, [t1]), Column(b, [c1])], 1), Doc(1, [(a, List([t2]))]), fill)
      == Merge([Column(a, [t1, t2]), Column(b, [c1, fill])], 2)
  {
    var first := [Column(a, [t1]), Column(b, [c1])];
    var e := [Column(a, [t1, t2]), Column(b, [c1])];
    OneFieldExtend(first, a, t2, Repeat(fill, 1), 0);
    assert [t1] + [t2] == [t1, t2];
    PadPairTo(e[0], e[1], 2, fill);
    assert [c1] + Repeat(fill, 2 - 1) == [c1, fill];
    assert [t1, t2] + Repeat(fill, 2 - 2) == [t1, t2];
  }

  /** The second document of the second counter-example extends `a` and starts `b` from the seed. */
  lemma LateFieldExtend<T>(a: string, b: string, t1: T, t2: T, c2: T, seed: seq<T>)
    requires a != b
    ensures ExtendFields([Column(a, [t1])], [(a, List([t2])), (b, List([c2]))], 1, seed)
      == [Column(a, [t1, t2]), Column(b, seed + [c2])]
  {
    KnownThenNewExtend([Column(a, [t1])], a, t2, b, c2, seed, 0);
    assert [t1] + [t2] == [t1, t2];
  }

  /** The second document of the second counter-example, merged as written. */
  lemma LateFieldAsWritten<T>(a: string, b: string, t1: T, t2: T, c2: T, fill: T)
    requires a != b
    ensures Merged([Doc(1, [(a, List([t1]))]), Doc(1, [(a, List([t2])), (b, List([c2]))])], fill).columns
      == [Column(a, [t1, t2]), Column(b, [c2, fill, fill])]
  {
    var d1 := Doc(1, [(a, List([t1]))]);
    var d2 := Doc(1, [(a, List([t2])), (b, List([c2]))]);
    SingleFieldDocument(a, t1, fill);
    LateFieldStep(a, b, t1, t2, c2, fill);
    MergedSnoc([d1], d2, fill);
    assert [d1] + [d2] == [d1, d2];
  }

  lemma LateFieldStep<T>(a: string, b: string, t1: T, t2: T, c2: T, fill: T)
    requires a != b
    ensures Step(Merge([Column(a, [t1])], 1), Doc(1, [(a, List([t2])), (b, List([c2]))]), fill).columns
      == [Column(a, [t1, t2]), Column(b, [c2, fill, fill])]
  {
    var first := [Column(a, [t1])];
    var e := [Column(a, [t1, t2]), Column(b, [c2])];
    LateFieldExtend(a, b, t1, t2, c2, []);
    assert [] + [c2] == [c2];
    PadSecond(e[0], e[1], 2, fill);
    assert [c2] + Repeat(fill, 2) == [c2, fill, fill];
  }

  /** The second document of the second counter-example, merged as intended. */
  lemma LateFieldAsIntended<T>(a: string, b: string, t1: T, t2: T, c2: T, fill: T)
    requires a != b
    ensures AlignedMerged([Doc(1, [(a, List([t1]))]), Doc(1, [(a, List([t2])), (b, List([c2]))])], fill).columns
      == [Column(a, [t1, t2]), Column(b, [fill, c2])]
  {
    var d1 := Doc(1, [(a, List([t1]))]);
    var d2 := Doc(1, [(a, List([t2])), (b, List([c2]))]);
    SingleFieldDocument(a, t1, fill);
    LateFieldAlignedStep(a, b, t1, t2, c2, fill);
    MergedSnoc([d1], d2, fill);
    assert [d1] + [d2] == [d1, d2];
  }

  lemma LateFieldAlignedStep<T>(a: string, b: string, t1: T, t2: T, c2: T, fill: T)
    requires a != b
    ensures AlignedStep(Merge([Column(a, [t1])], 1), Doc(1, [(a, List([t2])), (b, List([c2]))]), fill).columns
      == [Column(a, [t1, t2]), Column(b, [fill, c2])]
  {
    var first := [Column(a, [t1])];
    var e := [Column(a, [t1, t2]), Column(b, [fill, c2])];
    LateFieldExtend(a, b, t1, t2, c2, Repeat(fill, 1));
    assert Repeat(fill, 1) + [c2] == [fill, c2];
    PadPairTo(e[0], e[1], 2, fill);
    assert [fill, c2] + Repeat(fill, 2 - 2) == [fill, c2];
    assert [t1, t2] + Repeat(fill, 2 - 2) == [t1, t2];
  }

  /**
   * Line 50 as written: a document without `close` makes the running total 2,
   * and the one-element `close` list gets two fill values instead of one.
   */
  lemma MissingFieldOverPadded<T>(t1: T, t2: T, c1: T, fill: T)
    ensures var docs := [Doc(1, [("datetime", List([t1])), ("close", List([c1]))]), Doc(1, [("datetime", List([t2]))])];
      && Merged(docs, fill) == Merge([Column("datetime", [t1, t2]), Column("close", [c1, fill, fill])], 2)
      && AlignedMerged(docs, fill) == Merge([Column("datetime", [t1, t2]), Column("close", [c1, fill])], 2)
  {
    OverPaddedAsWritten("datetime", "close", t1, t2, c1, fill);
    OverPaddedAsIntended("datetime", "close", t1, t2, c1, fill);
  }

  /**
   * Line 47 as written: a field that first appears in the second document
   * starts a fresh list, so its value lands at the front of the column; the
   * intended merge puts it in the second document's slot.
   */
  lemma LateFieldAtFront<T>(t1: T, t2: T, c2: T, fill: T)
    ensures var docs := [Doc(1, [("datetime", List([t1]))]), Doc(1, [("datetime", List([t2])), ("close", List([c2]))])];
      && Merged(docs, fill).columns == [Column("datetime", [t1, t2]), Column("close", [c2, fill, fill])]
      && AlignedMerged(docs, fill).columns == [Column("datetime", [t1, t2]), Column("close", [fill, c2])]
  {
    LateFieldAsWritten("datetime", "close", t1, t2, c2, fill);
    LateFieldAsIntended("datetime", "close", t1, t2, c2, fill);
  }

  /** Padding as written on two columns that are both short. */
  lemma PadBoth<T>(x: Column<T>, y: Column<T>, total: int, fill: T)
    requires |x.values| != total && |y.values| != total
    ensures PadColumns([x, y], total, fill)
      == [Column(x.name, x.values + Repeat(fill, total)), Column(y.name, y.values + Repeat(fill, total))]
  {
  }

  /** A document that supplies no list, merged as written: both one-element lists gain two fills. */
  lemma EmptyDocStep<T>(a: string, b: string, t1: T, c1: T, fill: T)
    ensures Step(Merge([Column(a, [t1]), Column(b, [c1])], 1), Doc(1, []), fill)
      == Merge([Column(a, [t1, fill, fill]), Column(b, [c1, fill, fill])], 2)
  {
    var cols := [Column(a, [t1]), Column(b, [c1])];
    assert ExtendFields(cols, [], 1, []) == cols;
    PadBoth(cols[0], cols[1], 2, fill);
    assert [t1] + Repeat(fill, 2) == [t1, fill, fill];
    assert [c1] + Repeat(fill, 2) == [c1, fill, fill];
  }

  /** The same document merged as intended: both lists gain one fill. */
  lemma EmptyDocAlignedStep<T>(a: string, b: string, t1: T, c1: T, fill: T)
    ensures AlignedStep(Merge([Column(a, [t1]), Column(b, [c1])], 1), Doc(1, []), fill)
      == Merge([Column(a, [t1, fill]), Column(b, [c1, fill])], 2)
  {
    var cols := [Column(a, [t1]), Column(b, [c1])];
    assert ExtendFields(cols, [], 1, Repeat(fill, 1)) == cols;
    PadPairTo(cols[0], cols[1], 2, fill);
    assert [t1] + Repeat(fill, 2 - 1) == [t1, fill];
    assert [c1] + Repeat(fill, 2 - 1) == [c1, fill];
  }

  /**
   * Line 50 as written, silently: a second document that supplies no list
   * over-pads every list by the same amount, so the lengths still agree and
   * no error is raised. Each list ends up with three elements for a total of
   * two, `datetime` included; the intended merge gives two.
   */
  lemma SilentOverPadding<T>(t1: T, c1: T, fill: T)
    ensures var docs := [Doc(1, [("datetime", List([t1])), ("close", List([c1]))]), Doc(1, [])];
      && Merged(docs, fill) == Merge([Column("datetime", [t1, fill, fill]), Column("close", [c1, fill, fill])], 2)
      && AlignedMerged(docs, fill) == Merge([Column("datetime", [t1, fill]), Column("close", [c1, fill])], 2)
  {
    var d1 := Doc(1, [("datetime", List([t1])), ("close", List([c1]))]);
    var d2: Doc<T> := Doc(1, []);
    FirstDocument("datetime", t1, "close", c1, fill);
    EmptyDocStep("datetime", "close", t1, c1, fill);
    EmptyDocAlignedStep("datetime", "close", t1, c1, fill);
    MergedSnoc([d1], d2, fill);
    assert [d1] + [d2] == [d1, d2];
  }
}
