/** What `getInitialData` derives from the three reference sheets, stated as
    functions of the sheets' data rows (the rows after the header): the
    promoters with their stores, the global store list and the map from each
    of our models to its competitors. Each row is first read into a small
    line value (what the row contributes once its cells are tested, converted
    and trimmed); grouping and de-duplication are then defined on lines. The
    loops of both scripts are proved against these definitions; the lemmas
    below say what the definitions promise. */
module ReferenceData {
  import opened JsValues
  import opened Workbook

  datatype Promoter = Promoter(name: string, stores: seq<string>)

  function Init<T>(s: seq<T>): seq<T> requires |s| > 0 { s[..|s| - 1] }
  function Last<T>(s: seq<T>): T requires |s| > 0 { s[|s| - 1] }

  predicate Distinct<T(==)>(s: seq<T>) {
    forall i, j :: 0 <= i < j < |s| ==> s[i] != s[j]
  }

  // ---------------------------------------------------------------------------
  // First occurrences
  // ---------------------------------------------------------------------------

  /** The index of the first occurrence of `x` in `s`. */
  function IndexOf<T(==)>(s: seq<T>, x: T): (k: nat)
    requires x in s
    ensures k < |s| && s[k] == x && x !in s[..k]
  {
    if s[0] == x then 0 else assert x in s[1..]; 1 + IndexOf(s[1..], x)
  }

  /** Each element of `s` once, where it first occurs. */
  function FirstOccurrences(s: seq<string>): (r: seq<string>)
    ensures forall x :: x in r <==> x in s
    ensures Distinct(r)
  {
    if s == [] then []
    else
      var r := FirstOccurrences(Init(s));
      assert forall x :: x in s <==> x in Init(s) || x == Last(s) by {
        assert s == Init(s) + [Last(s)];
      }
      if Last(s) in r then r else r + [Last(s)]
  }

  /** One more element is kept exactly when it has not been seen. */
  lemma FirstOccurrencesStep(s: seq<string>, x: string)
    ensures FirstOccurrences(s + [x]) ==
      if x in FirstOccurrences(s) then FirstOccurrences(s) else FirstOccurrences(s) + [x]
  {
    assert Init(s + [x]) == s;
  }

  /** Appending to a sequence does not move an earlier first occurrence. */
  lemma IndexOfInit(s: seq<string>, x: string)
    requires |s| > 0 && x in Init(s)
    ensures IndexOf(s, x) == IndexOf(Init(s), x)
  {
    var k, k' := IndexOf(Init(s), x), IndexOf(s, x);
    assert s[k] == x;
    assert s[..k'] == Init(s)[..k'];
  }

  /** The elements of `FirstOccurrences(s)` come in the order in which they
      first occur in `s`; with `Distinct` and membership this pins the result
      down as the order-preserving de-duplication of `s`. */
  lemma {:induction false} FirstOccurrencesOrdered(s: seq<string>)
    ensures forall i, j :: 0 <= i < j < |FirstOccurrences(s)| ==>
      IndexOf(s, FirstOccurrences(s)[i]) < IndexOf(s, FirstOccurrences(s)[j])
  {
    if s != [] {
      var r0 := FirstOccurrences(Init(s));
      var r := FirstOccurrences(s);
      FirstOccurrencesOrdered(Init(s));
      assert r == r0 || (Last(s) !in r0 && r == r0 + [Last(s)]);
      forall i, j | 0 <= i < j < |r| ensures IndexOf(s, r[i]) < IndexOf(s, r[j]) {
        assert r[i] == r0[i] && r0[i] in Init(s);
        IndexOfInit(s, r0[i]);
        if j < |r0| {
          assert r[j] == r0[j] && r0[j] in Init(s);
          IndexOfInit(s, r0[j]);
          assert IndexOf(Init(s), r0[i]) < IndexOf(Init(s), r0[j]);
        } else {
          assert r[j] == Last(s) && Last(s) !in Init(s);
          assert s[..|s| - 1] == Init(s);
          assert IndexOf(s, Last(s)) == |s| - 1;
        }
      }
    }
  }

  // ---------------------------------------------------------------------------
  // PROMOTORES: promoters and their stores
  // ---------------------------------------------------------------------------

  /** What a promoter row contributes: nothing, or a promoter key and a store
      (`""` when the row has none). */
  datatype PromoterLine = Skipped | Line(name: string, store: string)

  /** `row && row[PROMOTER_COL]` tests the raw promoter cell before it is
      trimmed; the store cell goes through the `x ? x.toString().trim() : ''`
      idiom. */
  function PromoterLineOf(row: Row): PromoterLine {
    if Truthy(At(row, PROMOTER_COL)) then Line(Trim(ToText(row[PROMOTER_COL])), CellText(At(row, STORE_COL)))
    else Skipped
  }

  function PromoterLines(rows: seq<Row>): (ls: seq<PromoterLine>)
    ensures |ls| == |rows| && forall k :: 0 <= k < |rows| ==> ls[k] == PromoterLineOf(rows[k])
  {
    seq(|rows|, k requires 0 <= k < |rows| => PromoterLineOf(rows[k]))
  }

  /** The promoter key of every line that has one, repeats included. */
  function Names(ls: seq<PromoterLine>): seq<string> {
    if ls == [] then []
    else Names(Init(ls)) + if Last(ls).Line? then [Last(ls).name] else []
  }

  /** The non-empty stores of the lines of promoter `name`, in line order. */
  function StoresOf(ls: seq<PromoterLine>, name: string): seq<string> {
    if ls == [] then []
    else
      var l := Last(ls);
      StoresOf(Init(ls), name) + if l.Line? && l.name == name && l.store != "" then [l.store] else []
  }

  /** One more line adds at most its own key and its own store. */
  lemma PromoterLineStep(ls: seq<PromoterLine>, l: PromoterLine, name: string)
    ensures Names(ls + [l]) == Names(ls) + if l.Line? then [l.name] else []
    ensures StoresOf(ls + [l], name) ==
      StoresOf(ls, name) + if l.Line? && l.name == name && l.store != "" then [l.store] else []
  {
    assert Init(ls + [l]) == ls;
  }

  /** A key no line carries has no stores. */
  lemma {:induction false} StoresOfUnnamed(ls: seq<PromoterLine>, name: string)
    requires name !in Names(ls)
    ensures StoresOf(ls, name) == []
  {
    if ls != [] {
      assert Names(ls) == Names(Init(ls)) + if Last(ls).Line? then [Last(ls).name] else [];
      StoresOfUnnamed(Init(ls), name);
    }
  }

  /** One promoter entry per name, in the order of `names`. */
  function PromotersIn(ls: seq<PromoterLine>, names: seq<string>): seq<Promoter> {
    seq(|names|, i requires 0 <= i < |names| => Promoter(names[i], StoresOf(ls, names[i])))
  }

  /** Listing one more name adds its entry at the end. */
  lemma PromotersInStep(ls: seq<PromoterLine>, names: seq<string>, k: nat)
    requires k < |names|
    ensures PromotersIn(ls, names[..k + 1]) ==
      PromotersIn(ls, names[..k]) + [Promoter(names[k], StoresOf(ls, names[k]))]
  {
    assert names[..k + 1][..k] == names[..k];
  }

  /** The `promoters` list of the reference data. */
  function GroupPromoters(rows: seq<Row>): seq<Promoter> {
    var ls := PromoterLines(rows);
    PromotersIn(ls, FirstOccurrences(Names(ls)))
  }

  lemma {:induction false} NamesMembers(ls: seq<PromoterLine>)
    ensures forall n :: n in Names(ls) <==> exists k :: 0 <= k < |ls| && ls[k].Line? && ls[k].name == n
  {
    if ls != [] {
      NamesMembers(Init(ls));
      assert forall k :: 0 <= k < |ls| - 1 ==> ls[k] == Init(ls)[k];
    }
  }

  /** The indices of the lines that record store `s` for promoter `name`. */
  function Supplying(ls: seq<PromoterLine>, name: string, s: string): set<nat> {
    set k | 0 <= k < |ls| && ls[k] == Line(name, s)
  }

  /** A promoter's store list holds the store of every line of that promoter
      that has one, exactly as often as such lines occur: duplicates are
      kept. */
  lemma SupplyingStep(ls: seq<PromoterLine>, name: string, s: string)
    requires ls != []
    ensures |Supplying(ls, name, s)| == |Supplying(Init(ls), name, s)| + if Last(ls) == Line(name, s) then 1 else 0
  {
    var before := Supplying(Init(ls), name, s);
    if Last(ls) == Line(name, s) {
      assert Supplying(ls, name, s) == before + {|ls| - 1};
    } else {
      assert Supplying(ls, name, s) == before;
    }
  }

  lemma {:induction false} StoresOfCount(ls: seq<PromoterLine>, name: string, s: string)
    requires s != ""
    ensures multiset(StoresOf(ls, name))[s] == |Supplying(ls, name, s)|
  {
    if ls != [] {
      StoresOfCount(Init(ls), name, s);
      SupplyingStep(ls, name, s);
    }
  }

  /** No promoter is listed with the empty store. */
  lemma {:induction false} StoresOfNonEmpty(ls: seq<PromoterLine>, name: string)
    ensures "" !in StoresOf(ls, name)
  {
    if ls != [] {
      StoresOfNonEmpty(Init(ls), name);
    }
  }

  /** The `promoters` list has an entry for a name exactly when some promoter
      row passes the raw-cell test and trims to that name. */
  lemma GroupPromotersMembers(rows: seq<Row>, name: string)
    ensures var r, ls := GroupPromoters(rows), PromoterLines(rows);
      (exists i :: 0 <= i < |r| && r[i].name == name) <==>
      (exists k :: 0 <= k < |rows| && ls[k].Line? && ls[k].name == name)
  {
    var ls := PromoterLines(rows);
    var names := FirstOccurrences(Names(ls));
    var r := GroupPromoters(rows);
    NamesMembers(ls);
    if name in names {
      var i := IndexOf(names, name);
      assert r[i].name == name;
    }
  }

  /** One entry per promoter, in order of first appearance. */
  lemma GroupPromotersOrdered(rows: seq<Row>)
    ensures var r, ns := GroupPromoters(rows), Names(PromoterLines(rows));
      && (forall i :: 0 <= i < |r| ==> r[i].name in ns)
      && (forall i, j :: 0 <= i < j < |r| ==> IndexOf(ns, r[i].name) < IndexOf(ns, r[j].name))
  {
    var ns := Names(PromoterLines(rows));
    var names := FirstOccurrences(ns);
    var r := GroupPromoters(rows);
    FirstOccurrencesOrdered(ns);
    assert forall i :: 0 <= i < |r| ==> r[i].name == names[i] && names[i] in names;
  }

  /** Each entry holds the non-empty stores of that promoter's rows, each as
      often as the rows record it: duplicates are kept. A promoter none of
      whose rows has a store is listed with no stores. */
  lemma GroupPromotersStores(rows: seq<Row>, i: nat, store: string)
    requires i < |GroupPromoters(rows)|
    ensures var p, ls := GroupPromoters(rows)[i], PromoterLines(rows);
      && "" !in p.stores
      && (store != "" ==> multiset(p.stores)[store] == |set k | 0 <= k < |ls| && ls[k] == Line(p.name, store)|)
  {
    var ls := PromoterLines(rows);
    var names := FirstOccurrences(Names(ls));
    var p := GroupPromoters(rows)[i];
    assert p == Promoter(names[i], StoresOf(ls, names[i]));
    StoresOfNonEmpty(ls, p.name);
    if store != "" {
      StoresOfCount(ls, p.name, store);
    }
  }

  // ---------------------------------------------------------------------------
  // TIENDAS: the global store list
  // ---------------------------------------------------------------------------

  /** The trimmed store name in column 0 of a store row, `""` when there is
      none (`storesData[i][0]` is tested raw, then trimmed). */
  function StoreCellName(row: Row): string {
    CellText(At(row, 0))
  }

  function StoreCells(rows: seq<Row>): (cs: seq<string>)
    ensures |cs| == |rows| && forall k :: 0 <= k < |rows| ==> cs[k] == StoreCellName(rows[k])
  {
    seq(|rows|, k requires 0 <= k < |rows| => StoreCellName(rows[k]))
  }

  /** The non-empty names of `cs`, repeats included. */
  function NonEmpty(cs: seq<string>): seq<string> {
    if cs == [] then [] else NonEmpty(Init(cs)) + if Last(cs) != "" then [Last(cs)] else []
  }

  lemma NonEmptyStep(cs: seq<string>, c: string)
    ensures NonEmpty(cs + [c]) == NonEmpty(cs) + if c != "" then [c] else []
  {
    assert Init(cs + [c]) == cs;
  }

  /** The `stores` list of the reference data. */
  function StoreList(rows: seq<Row>): seq<string> {
    FirstOccurrences(NonEmpty(StoreCells(rows)))
  }

  lemma {:induction false} NonEmptyMembers(cs: seq<string>)
    ensures forall s :: s in NonEmpty(cs) <==> s != "" && s in cs
  {
    if cs != [] {
      NonEmptyMembers(Init(cs));
      assert cs == Init(cs) + [Last(cs)];
    }
  }

  /** The global store list holds each trimmed, non-empty store name of the
      sheet exactly once, in order of first occurrence. */
  lemma StoreListSpec(rows: seq<Row>, store: string)
    ensures var r := StoreList(rows);
      && (store in r <==> store != "" && exists k :: 0 <= k < |rows| && StoreCellName(rows[k]) == store)
      && Distinct(r)
      && (forall i, j :: 0 <= i < j < |r| ==>
            IndexOf(NonEmpty(StoreCells(rows)), r[i]) < IndexOf(NonEmpty(StoreCells(rows)), r[j]))
  {
    NonEmptyMembers(StoreCells(rows));
    FirstOccurrencesOrdered(NonEmpty(StoreCells(rows)));
    if store in StoreCells(rows) {
      var k := IndexOf(StoreCells(rows), store);
      assert StoreCellName(rows[k]) == store;
    }
  }

  // ---------------------------------------------------------------------------
  // MODELOS: each of our models and its competitors
  // ---------------------------------------------------------------------------

  /** What a model row contributes: its trimmed model and competitor cells,
      each `""` when absent. */
  datatype ModelLine = ModelLine(model: string, competitor: string)

  function ModelLineOf(row: Row): ModelLine {
    ModelLine(CellText(At(row, MODEL_COL)), CellText(At(row, COMPETITOR_COL)))
  }

  function ModelLines(rows: seq<Row>): (ls: seq<ModelLine>)
    ensures |ls| == |rows| && forall k :: 0 <= k < |rows| ==> ls[k] == ModelLineOf(rows[k])
  {
    seq(|rows|, k requires 0 <= k < |rows| => ModelLineOf(rows[k]))
  }

  /** The non-empty model of every line, repeats included. */
  function ModelNames(ls: seq<ModelLine>): seq<string> {
    if ls == [] then []
    else ModelNames(Init(ls)) + if Last(ls).model != "" then [Last(ls).model] else []
  }

  /** Line `l` names `c` as a competitor of model `m`. */
  predicate Rivals(l: ModelLine, m: string, c: string) {
    l.model == m && l.competitor == c && c != "" && c != m
  }

  /** The competitors the lines of model `m` name, in line order, leaving out
      empty ones and `m` itself. */
  function CompetitorsOf(ls: seq<ModelLine>, m: string): seq<string> {
    if ls == [] then []
    else
      var l := Last(ls);
      CompetitorsOf(Init(ls), m) + if Rivals(l, m, l.competitor) then [l.competitor] else []
  }

  function CompetitorMap(ls: seq<ModelLine>): map<string, seq<string>> {
    map m | m in ModelNames(ls) :: CompetitorsOf(ls, m)
  }

  /** The `modelCompetitors` object of the reference data. */
  function ModelCompetitors(rows: seq<Row>): map<string, seq<string>> {
    CompetitorMap(ModelLines(rows))
  }

  lemma {:induction false} ModelNamesMembers(ls: seq<ModelLine>)
    ensures forall m :: m in ModelNames(ls) <==> m != "" && exists k :: 0 <= k < |ls| && ls[k].model == m
  {
    if ls != [] {
      ModelNamesMembers(Init(ls));
      assert forall k :: 0 <= k < |ls| - 1 ==> ls[k] == Init(ls)[k];
    }
  }

  /** The indices of the lines that name `c` as a competitor of `m`. */
  function RivalLines(ls: seq<ModelLine>, m: string, c: string): set<nat> {
    set k | 0 <= k < |ls| && Rivals(ls[k], m, c)
  }

  lemma RivalLinesStep(ls: seq<ModelLine>, m: string, c: string)
    requires ls != []
    ensures |RivalLines(ls, m, c)| == |RivalLines(Init(ls), m, c)| + if Rivals(Last(ls), m, c) then 1 else 0
  {
    var n := |ls| - 1;
    var before, after := RivalLines(Init(ls), m, c), RivalLines(ls, m, c);
    forall k | k in after && k != n ensures k in before {
      assert Init(ls)[k] == ls[k];
    }
    forall k | k in before ensures k in after && k != n {
      assert Init(ls)[k] == ls[k];
    }
    if Rivals(Last(ls), m, c) {
      assert after == before + {n};
    } else {
      assert after == before;
    }
  }

  /** A model's competitor list holds the competitor of each line of that
      model as often as such lines occur: duplicates are kept. */
  lemma {:induction false} CompetitorsOfCount(ls: seq<ModelLine>, m: string, c: string)
    ensures multiset(CompetitorsOf(ls, m))[c] == |RivalLines(ls, m, c)|
  {
    if ls != [] {
      CompetitorsOfCount(Init(ls), m, c);
      RivalLinesStep(ls, m, c);
    }
  }

  /** Every trimmed non-empty model gets a key, even one with no competitor,
      and nothing else does. */
  lemma ModelCompetitorsKeys(rows: seq<Row>, m: string)
    ensures m in ModelCompetitors(rows) <==> m != "" && exists k :: 0 <= k < |rows| && ModelLineOf(rows[k]).model == m
  {
    var ls := ModelLines(rows);
    ModelNamesMembers(ls);
    if m in ModelNames(ls) {
      var k :| 0 <= k < |ls| && ls[k].model == m;
      assert ModelLineOf(rows[k]).model == m;
    }
  }

  /** A model's list never holds `""` or the model itself. */
  lemma ModelCompetitorsExcluded(rows: seq<Row>, m: string)
    requires m in ModelCompetitors(rows)
    ensures "" !in ModelCompetitors(rows)[m] && m !in ModelCompetitors(rows)[m]
  {
    var ls := ModelLines(rows);
    CompetitorsOfCount(ls, m, "");
    CompetitorsOfCount(ls, m, m);
    assert RivalLines(ls, m, "") == {};
    assert RivalLines(ls, m, m) == {};
  }

  /** A model's list holds the competitor of each row of that model as often
      as such rows occur: duplicates are kept. */
  lemma ModelCompetitorsCounts(rows: seq<Row>, m: string, c: string)
    requires m in ModelCompetitors(rows)
    ensures multiset(ModelCompetitors(rows)[m])[c] == |set k | 0 <= k < |rows| && Rivals(ModelLineOf(rows[k]), m, c)|
  {
    var ls := ModelLines(rows);
    CompetitorsOfCount(ls, m, c);
    RivalLinesOfRows(rows, m, c);
  }

  /** The rival lines of the sheet's model lines are its rival rows. */
  lemma RivalLinesOfRows(rows: seq<Row>, m: string, c: string)
    ensures RivalLines(ModelLines(rows), m, c) == set k | 0 <= k < |rows| && Rivals(ModelLineOf(rows[k]), m, c)
  {
    var ls := ModelLines(rows);
    assert forall k :: 0 <= k < |rows| ==> ls[k] == ModelLineOf(rows[k]);
  }

  /** How one more model line changes `modelCompetitors`: the loop body of
      both scripts. */
  lemma CompetitorMapStep(ls: seq<ModelLine>, l: ModelLine)
    ensures var mc, m, c := CompetitorMap(ls), l.model, l.competitor;
      CompetitorMap(ls + [l]) ==
        if m == "" then mc
        else mc[m := (if m in mc then mc[m] else []) + if c != "" && c != m then [c] else []]
  {
    if l.model == "" {
      CompetitorMapSkip(ls, l);
    } else {
      CompetitorMapAdd(ls, l);
    }
  }

  /** One more line adds at most its model and its competitor. */
  lemma ModelLineStep(ls: seq<ModelLine>, l: ModelLine)
    ensures ModelNames(ls + [l]) == ModelNames(ls) + if l.model != "" then [l.model] else []
    ensures forall k :: (CompetitorsOf(ls + [l], k) ==
                         CompetitorsOf(ls, k) + if Rivals(l, k, l.competitor) then [l.competitor] else [])
  {
    assert Init(ls + [l]) == ls && Last(ls + [l]) == l;
  }

  lemma CompetitorMapSkip(ls: seq<ModelLine>, l: ModelLine)
    requires l.model == ""
    ensures CompetitorMap(ls + [l]) == CompetitorMap(ls)
  {
    var mc, mc' := CompetitorMap(ls), CompetitorMap(ls + [l]);
    ModelLineStep(ls, l);
    ModelNamesMembers(ls);
    assert ModelNames(ls + [l]) == ModelNames(ls);
    assert mc'.Keys == mc.Keys;
    forall k | k in mc ensures mc'[k] == mc[k] {
      assert CompetitorsOf(ls + [l], k) == CompetitorsOf(ls, k) + [];
    }
  }

  lemma CompetitorMapAdd(ls: seq<ModelLine>, l: ModelLine)
    requires l.model != ""
    ensures var mc, m, c := CompetitorMap(ls), l.model, l.competitor;
      CompetitorMap(ls + [l]) == mc[m := (if m in mc then mc[m] else []) + if c != "" && c != m then [c] else []]
  {
    var m, c := l.model, l.competitor;
    var mc, mc' := CompetitorMap(ls), CompetitorMap(ls + [l]);
    var v := (if m in mc then mc[m] else []) + if c != "" && c != m then [c] else [];
    ModelLineStep(ls, l);
    if m !in mc {
      ModelNamesMembers(ls);
      CompetitorsOfEmpty(ls, m);
    }
    assert mc'.Keys == mc[m := v].Keys;
    forall k | k in mc' ensures mc'[k] == mc[m := v][k] {
      if k != m {
        assert CompetitorsOf(ls + [l], k) == CompetitorsOf(ls, k) + [];
      }
    }
  }

  lemma {:induction false} CompetitorsOfEmpty(ls: seq<ModelLine>, m: string)
    requires forall k :: 0 <= k < |ls| ==> ls[k].model != m
    ensures CompetitorsOf(ls, m) == []
  {
    if ls != [] {
      CompetitorsOfEmpty(Init(ls), m);
    }
  }
}
