/** The keyword-list normaliser `parseCSV` of the project-creation modal, which the project
    list API repeats inline: split on commas, trim each piece, drop the empty ones. */
module Csv {
  import opened Strings
  import Seqs

  predicate NonEmpty(t: string)
  {
    t != ""
  }

  /** `s.split(',').map(v => v.trim()).filter(Boolean)`. */
  function ParseCsv(s: string): (r: seq<string>)
    ensures forall i :: 0 <= i < |r| ==> CleanToken(r[i])
  {
    var pieces := Split(s, ',');
    var trimmed := Seqs.Map(Trim, pieces);
    forall i | 0 <= i < |trimmed| ensures Trimmed(trimmed[i]) && ',' !in trimmed[i] {
      assert pieces[i] in pieces;
    }
    Seqs.Filter(NonEmpty, trimmed)
  }

  /** What every keyword token is: non-empty, trimmed at both ends, free of commas. */
  predicate CleanToken(t: string)
  {
    t != "" && Trimmed(t) && ',' !in t
  }

  /** Splitting at one separator splits each side on its own. */
  lemma {:induction false} SplitAppend(a: string, b: string, sep: char)
    ensures Split(a + [sep] + b, sep) == Split(a, sep) + Split(b, sep)
  {
    if a == [] {
      SplitAtFirstSep(a, b, sep);
    } else {
      var s := a + [sep] + b;
      assert s[0] == a[0] && s[1..] == a[1..] + [sep] + b;
      SplitAppend(a[1..], b, sep);
      var ra := Split(a[1..], sep);
      var rest := Split(s[1..], sep);
      assert rest == ra + Split(b, sep);
      if a[0] != sep {
        assert rest[0] == ra[0];
        assert rest[1..] == ra[1..] + Split(b, sep);
      }
    }
  }

  /** Tokens keep their left-to-right order: the tokens of `a,b` are those of `a` followed by
      those of `b`. */
  lemma ParseCsvAppend(a: string, b: string)
    ensures ParseCsv(a + "," + b) == ParseCsv(a) + ParseCsv(b)
  {
    SplitAppend(a, b, ',');
    Seqs.MapAppend(Trim, Split(a, ','), Split(b, ','));
    Seqs.FilterAppend(NonEmpty, Seqs.Map(Trim, Split(a, ',')), Seqs.Map(Trim, Split(b, ',')));
  }

  /** The empty input has no tokens. */
  lemma ParseCsvOfEmpty()
    ensures ParseCsv("") == []
  {
    assert Split([], ',') == [[]];
    assert Seqs.Map(Trim, [[]]) == [[]];
    Seqs.FilterSingleton(NonEmpty, []);
  }

  /** Trimming already-trimmed tokens changes none of them. */
  lemma TrimAllTrimmed(ts: seq<string>)
    requires forall i :: 0 <= i < |ts| ==> Trimmed(ts[i])
    ensures Seqs.Map(Trim, ts) == ts
  {
    forall i | 0 <= i < |ts| ensures Trim(ts[i]) == ts[i] {
      TrimOfTrimmed(ts[i]);
    }
  }

  /** Parsing the comma-join of clean tokens gives the tokens back. */
  lemma ParseCsvOfJoin(ts: seq<string>)
    requires forall i :: 0 <= i < |ts| ==> CleanToken(ts[i])
    ensures ParseCsv(Join(ts, ',')) == ts
  {
    if ts == [] {
      ParseCsvOfEmpty();
    } else {
      assert forall t :: t in ts ==> ',' !in t;
      SplitOfJoin(ts, ',');
      TrimAllTrimmed(ts);
      Seqs.FilterKeepsAll(NonEmpty, ts);
    }
  }

  /** `parseCSV` round-trips: reparsing the comma-join of its output gives the same list. */
  lemma ParseCsvRoundTrip(s: string)
    ensures ParseCsv(Join(ParseCsv(s), ',')) == ParseCsv(s)
  {
    ParseCsvOfJoin(ParseCsv(s));
  }

  /** A blank input has no tokens. */
  lemma ParseCsvOfBlank(s: string)
    requires AllSpace(s)
    ensures ParseCsv(s) == []
  {
    var pieces := Split(s, ',');
    forall i | 0 <= i < |pieces| ensures !NonEmpty(Seqs.Map(Trim, pieces)[i]) {
      assert pieces[i] in pieces;
      forall j | 0 <= j < |pieces[i]| ensures IsSpace(pieces[i][j]) {
        assert pieces[i][j] in pieces[i];
        var k :| 0 <= k < |s| && s[k] == pieces[i][j];
      }
    }
    Seqs.FilterDropsAll(NonEmpty, Seqs.Map(Trim, pieces));
  }

  /** The join of clean tokens is empty exactly when there are none. */
  lemma JoinOfCleanTokensEmpty(ts: seq<string>)
    requires forall i :: 0 <= i < |ts| ==> CleanToken(ts[i])
    ensures Join(ts, ',') == "" <==> ts == []
  {
    if |ts| == 1 {
    } else if |ts| > 1 {
      assert |Join(ts, ',')| >= |ts[0]| + 1;
    }
  }
}
