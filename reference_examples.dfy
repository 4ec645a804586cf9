/** Worked cases of the reference-data grouping, on small sheets. */
module ReferenceExamples {
  import opened JsValues
  import opened Workbook
  import opened ReferenceData

  /** A row of two text cells with a non-empty promoter cell: the line holds
      the trimmed promoter and the store cell's text. */
  lemma TextRowLine(name: string, store: string)
    requires name != ""
    ensures PromoterLineOf([Text(name), Text(store)]) == Line(Trim(name), CellText(Some(Text(store))))
  {
    var row := [Text(name), Text(store)];
    assert Trim(ToText(row[PROMOTER_COL])) == Trim(name);
    assert CellText(At(row, STORE_COL)) == CellText(Some(Text(store)));
  }

  /** With nothing to trim, the line holds the two texts as they are. */
  lemma PlainPromoterRow(name: string, store: string)
    requires name != "" && Trim(name) == name && Trim(store) == store
    ensures PromoterLineOf([Text(name), Text(store)]) == Line(name, store)
  {
    TextRowLine(name, store);
    CellTextOfText(store);
  }

  /** A promoter cell of blanks only is truthy, so the row is kept under the
      promoter `""`. */
  lemma BlankPromoterRow(blank: string, store: string)
    requires blank != "" && AllWhiteSpace(blank)
    ensures PromoterLineOf([Text(blank), Text(store)]) == Line("", CellText(Some(Text(store))))
  {
    TextRowLine(blank, store);
    TrimPadded(blank, "", "");
    assert blank + "" + "" == blank;
  }

  /** A falsy promoter cell (`''`, `0`, `false`) skips the row, whatever
      else it holds. */
  lemma FalsyPromoterRow(row: Row)
    requires |row| > 0 && !Truthy(Some(row[PROMOTER_COL]))
    ensures PromoterLineOf(row) == Skipped
  {
  }

  /** A row with only a promoter cell gives a line without a store. */
  lemma ShortPromoterRow(name: string)
    requires name != ""
    ensures PromoterLineOf([Text(name)]) == Line(Trim(name), "")
  {
    var row := [Text(name)];
    assert Trim(ToText(row[PROMOTER_COL])) == Trim(name);
    assert At(row, STORE_COL) == None;
  }

  /** The lines of the grouping scenario below. */
  function ScenarioLines(a: string, b: string, s1: string, s2: string): seq<PromoterLine> {
    [Line(a, s1), Line(a, s2), Skipped, Line(b, s1)]
  }

  lemma ScenarioNames(a: string, b: string, s1: string, s2: string)
    ensures Names(ScenarioLines(a, b, s1, s2)) == [a, a, b]
  {
    var l1, l2, l3 := Line(a, s1), Line(a, s2), Line(b, s1);
    var p0: seq<PromoterLine> := [];
    var p1, p2, p3, p4 := p0 + [l1], p0 + [l1, l2], p0 + [l1, l2, Skipped], ScenarioLines(a, b, s1, s2);
    assert p1 + [l2] == p2 && p2 + [Skipped] == p3 && p3 + [l3] == p4;
    PromoterLineStep(p0, l1, a);
    PromoterLineStep(p1, l2, a);
    PromoterLineStep(p2, Skipped, a);
    PromoterLineStep(p3, l3, a);
  }

  /** Repeats of a name keep only its first place. */
  lemma FirstOccurrencesScenario(a: string, b: string)
    requires a != b
    ensures FirstOccurrences([a, a, b]) == [a, b]
  {
    FirstOccurrencesRepeat(a);
    FirstOccurrencesStep([a, a], b);
    assert [a, a] + [b] == [a, a, b];
  }

  lemma FirstOccurrencesRepeat(a: string)
    ensures FirstOccurrences([a, a]) == [a]
  {
    var n0: seq<string> := [];
    FirstOccurrencesStep(n0, a);
    assert n0 + [a] == [a];
    FirstOccurrencesStep([a], a);
    assert [a] + [a] == [a, a];
  }

  lemma ScenarioStores(a: string, b: string, s1: string, s2: string, name: string)
    requires a != b && s1 != "" && s2 != "" && (name == a || name == b)
    ensures StoresOf(ScenarioLines(a, b, s1, s2), name) == if name == a then [s1, s2] else [s1]
  {
    var l1, l2, l3 := Line(a, s1), Line(a, s2), Line(b, s1);
    var p0: seq<PromoterLine> := [];
    var p1, p2, p3, p4 := p0 + [l1], p0 + [l1, l2], p0 + [l1, l2, Skipped], ScenarioLines(a, b, s1, s2);
    assert p1 + [l2] == p2 && p2 + [Skipped] == p3 && p3 + [l3] == p4;
    PromoterLineStep(p0, l1, name);
    PromoterLineStep(p1, l2, name);
    PromoterLineStep(p2, Skipped, name);
    PromoterLineStep(p3, l3, name);
  }

  /** Promoter `a` with two stores, a skipped row, then promoter `b` with the
      first store again: the promoters come in order of first appearance,
      each with its stores in row order. */
  lemma GroupingScenario(a: string, b: string, s1: string, s2: string)
    requires a != b && s1 != "" && s2 != ""
    ensures PromotersIn(ScenarioLines(a, b, s1, s2), FirstOccurrences(Names(ScenarioLines(a, b, s1, s2))))
         == [Promoter(a, [s1, s2]), Promoter(b, [s1])]
  {
    ScenarioNames(a, b, s1, s2);
    FirstOccurrencesScenario(a, b);
    ScenarioStores(a, b, s1, s2, a);
    ScenarioStores(a, b, s1, s2, b);
  }

  /** Repeated stores collapse to their first occurrence; empty store names
      are dropped. */
  lemma StoreListScenario(s1: string, s2: string)
    requires s1 != "" && s2 != "" && s1 != s2
    ensures FirstOccurrences(NonEmpty([s1, "", s2, s1])) == [s1, s2]
  {
    NonEmptyScenario(s1, s2);
    FirstOccurrencesPair(s1, s2);
    FirstOccurrencesStep([s1, s2], s1);
    assert [s1, s2] + [s1] == [s1, s2, s1];
  }

  lemma FirstOccurrencesPair(a: string, b: string)
    requires a != b
    ensures FirstOccurrences([a, b]) == [a, b]
  {
    var n0: seq<string> := [];
    FirstOccurrencesStep(n0, a);
    assert n0 + [a] == [a];
    FirstOccurrencesStep([a], b);
    assert [a] + [b] == [a, b];
  }

  lemma NonEmptyScenario(s1: string, s2: string)
    requires s1 != "" && s2 != ""
    ensures NonEmpty([s1, "", s2, s1]) == [s1, s2, s1]
  {
    var c0: seq<string> := [];
    var c1, c2, c3, c4 := c0 + [s1], c0 + [s1, ""], c0 + [s1, "", s2], [s1, "", s2, s1];
    assert c1 + [""] == c2 && c2 + [s2] == c3 && c3 + [s1] == c4;
    NonEmptyStep(c0, s1);
    NonEmptyStep(c1, "");
    NonEmptyStep(c2, s2);
    NonEmptyStep(c3, s1);
    assert NonEmpty(c2) == [s1] && NonEmpty(c3) == [s1, s2];
  }

  /** A model listed against itself, then against another model, a model
      with no competitor and a row without a model. */
  lemma ModelCompetitorsScenario(m: string, c: string, n: string)
    requires m != "" && c != "" && n != "" && m != c && m != n
    ensures CompetitorMap([ModelLine(m, m), ModelLine(m, c), ModelLine(n, ""), ModelLine("", c)])
         == map[m := [c], n := []]
  {
    var l0, l1, l2, l3 := ModelLine(m, m), ModelLine(m, c), ModelLine(n, ""), ModelLine("", c);
    var q0: seq<ModelLine> := [];
    var q1, q2, q3, q4 := q0 + [l0], q0 + [l0, l1], q0 + [l0, l1, l2], [l0, l1, l2, l3];
    assert q1 + [l1] == q2 && q2 + [l2] == q3 && q3 + [l3] == q4;
    var e: seq<string> := [];
    assert CompetitorMap(q0) == map[];
    CompetitorMapStep(q0, l0);
    assert CompetitorMap(q1) == map[][m := e + e];
    assert map[][m := e + e] == map[m := []];
    CompetitorMapStep(q1, l1);
    assert CompetitorMap(q2) == map[m := [] + [c]];
    assert [] + [c] == [c];
    CompetitorMapStep(q2, l2);
    assert CompetitorMap(q3) == map[m := [c]][n := e + e];
    CompetitorMapStep(q3, l3);
    assert map[m := [c]][n := e + e] == map[m := [c], n := []];
  }
}
