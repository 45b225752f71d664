// The metrics registry and its label printer (app/core/metrics.py), in the Prometheus text exposition
// format version 0.0.4, section 'Text format details'.
module Metrics {
  import opened Prelude
  import opened Words

  datatype Label = Label(key: string, value: string)
  type LabelSet = seq<Label>

  // str.replace of a one-character string.
  function Replace(s: string, c: char, into: string): string
  {
    if s == "" then "" else (if s[0] == c then into else [s[0]]) + Replace(s[1..], c, into)
  }

  function EscapeLabel(value: string): string
  {
    Replace(Replace(Replace(value, '\\', "\\\\"), '\n', "\\n"), '"', "\\\"")
  }

  function Rendered(labels: LabelSet): seq<string>
  {
    seq(|labels|, i requires 0 <= i < |labels| => labels[i].key + "=\"" + EscapeLabel(labels[i].value) + "\"")
  }

  function FormatLabels(labels: LabelSet): string
  {
    if labels == [] then "" else "{" + Join(Rendered(labels), ",") + "}"
  }

  // ----- Escaping -----

  // What becomes of one character.
  function EscapeChar(c: char): string
  {
    if c == '\\' then "\\\\" else if c == '\n' then "\\n" else if c == '"' then "\\\"" else [c]
  }

  function EscapeEach(s: string): string
  {
    if s == "" then "" else EscapeChar(s[0]) + EscapeEach(s[1..])
  }

  lemma {:induction false} ReplaceConcat(a: string, b: string, c: char, into: string)
    ensures Replace(a + b, c, into) == Replace(a, c, into) + Replace(b, c, into)
  {
    if a == "" {
      assert a + b == b;
    } else {
      assert (a + b)[1..] == a[1..] + b;
      ReplaceConcat(a[1..], b, c, into);
    }
  }

  lemma ReplaceOne(x: char, c: char, into: string)
    ensures Replace([x], c, into) == if x == c then into else [x]
  {
    assert [x][1..] == "";
  }

  lemma ReplaceTwo(x: char, y: char, c: char, into: string)
    ensures Replace([x, y], c, into) == (if x == c then into else [x]) + (if y == c then into else [y])
  {
    assert [x, y][1..] == [y];
    ReplaceOne(y, c, into);
  }

  lemma EscapeOne(c: char)
    ensures EscapeLabel([c]) == EscapeChar(c)
  {
    ReplaceOne(c, '\\', "\\\\");
    if c == '\\' {
      ReplaceTwo('\\', '\\', '\n', "\\n");
      ReplaceTwo('\\', '\\', '"', "\\\"");
    } else {
      ReplaceOne(c, '\n', "\\n");
      ReplaceTwo('\\', 'n', '"', "\\\"");
      ReplaceOne(c, '"', "\\\"");
    }
  }

  // The three replacements, one after the other, do not touch each other's output: together they are one
  // map applied character by character.
  lemma {:induction false} EscapeIsPerCharacter(s: string)
    ensures EscapeLabel(s) == EscapeEach(s)
  {
    if s != "" {
      var head, tail := [s[0]], s[1..];
      assert s == head + tail;
      ReplaceConcat(head, tail, '\\', "\\\\");
      var h1, t1 := Replace(head, '\\', "\\\\"), Replace(tail, '\\', "\\\\");
      ReplaceConcat(h1, t1, '\n', "\\n");
      ReplaceConcat(Replace(h1, '\n', "\\n"), Replace(t1, '\n', "\\n"), '"', "\\\"");
      EscapeOne(s[0]);
      EscapeIsPerCharacter(tail);
    }
  }

  // ----- A parser for what the printer prints -----

  // The text up to the first stop character, and the rest after it.
  function Until(s: string, stop: char): (r: Option<(string, string)>)
    ensures r.Some? ==> |r.value.1| < |s|
  {
    if s == "" then None
    else if s[0] == stop then Some(("", s[1..]))
    else match Until(s[1..], stop)
      case None => None
      case Some((text, rest)) => Some(([s[0]] + text, rest))
  }

  // An escaped value up to its closing quote.
  function ParseValue(s: string): (r: Option<(string, string)>)
    ensures r.Some? ==> |r.value.1| < |s|
  {
    if s == "" then None
    else if s[0] == '"' then Some(("", s[1..]))
    else if s[0] == '\\' then
      if |s| < 2 then None
      else
        match ParseValue(s[2..])
        case None => None
        case Some((text, rest)) => Some(([if s[1] == 'n' then '\n' else s[1]] + text, rest))
    else
      match ParseValue(s[1..])
      case None => None
      case Some((text, rest)) => Some(([s[0]] + text, rest))
  }

  // key="value" pairs separated by commas and closed by a brace.
  function ParsePairs(s: string): Option<(LabelSet, string)>
    decreases |s|
  {
    match Until(s, '=')
    case None => None
    case Some((key, afterKey)) =>
      if afterKey == "" || afterKey[0] != '"' then None
      else
        match ParseValue(afterKey[1..])
        case None => None
        case Some((value, rest)) =>
          if rest == "" then None
          else if rest[0] == '}' then Some(([Label(key, value)], rest[1..]))
          else if rest[0] != ',' then None
          else
            match ParsePairs(rest[1..])
            case None => None
            case Some((more, end)) => Some(([Label(key, value)] + more, end))
  }

  function ParseLabels(s: string): Option<(LabelSet, string)>
  {
    if s == "" || s[0] != '{' then Some(([], s)) else ParsePairs(s[1..])
  }

  // Label names as the format has them: without the separator.
  predicate ProperKeys(labels: LabelSet)
  {
    forall i, j :: 0 <= i < |labels| && 0 <= j < |labels[i].key| ==> labels[i].key[j] != '='
  }

  lemma {:induction false} UntilFindsKey(key: string, rest: string)
    requires forall j :: 0 <= j < |key| ==> key[j] != '='
    ensures Until(key + "=" + rest, '=') == Some((key, rest))
  {
    var s := key + "=" + rest;
    if key == "" {
      assert s[1..] == rest;
    } else {
      UntilFindsKey(key[1..], rest);
      assert s[1..] == key[1..] + "=" + rest;
      assert [key[0]] + key[1..] == key;
    }
  }

  lemma ParseEscapedChar(c: char, tail: string)
    ensures ParseValue(EscapeChar(c) + tail)
              == match ParseValue(tail) case None => None case Some((text, rest)) => Some(([c] + text, rest))
  {
    assert (EscapeChar(c) + tail)[|EscapeChar(c)|..] == tail;
  }

  lemma {:induction false} ParseUndoesEscape(value: string, rest: string)
    ensures ParseValue(EscapeEach(value) + "\"" + rest) == Some((value, rest))
  {
    var s := EscapeEach(value) + "\"" + rest;
    if value == "" {
      assert s[1..] == rest;
    } else {
      ParseUndoesEscape(value[1..], rest);
      var tail := EscapeEach(value[1..]) + "\"" + rest;
      assert s == EscapeChar(value[0]) + tail;
      ParseEscapedChar(value[0], tail);
      assert [value[0]] + value[1..] == value;
    }
  }

  function Pairs(labels: LabelSet): string
  {
    Join(Rendered(labels), ",") + "}"
  }

  // One printed pair and what follows it.
  function PairText(l: Label, tail: string): string
  {
    l.key + "=" + ("\"" + (EscapeEach(l.value) + "\"" + tail))
  }

  lemma ParseOnePair(l: Label, tail: string)
    requires (forall j :: 0 <= j < |l.key| ==> l.key[j] != '=') && tail != ""
    ensures tail[0] == '}' ==> ParsePairs(PairText(l, tail)) == Some(([l], tail[1..]))
    ensures tail[0] == ',' && ParsePairs(tail[1..]).Some? ==>
              ParsePairs(PairText(l, tail))
                == Some(([l] + ParsePairs(tail[1..]).value.0, ParsePairs(tail[1..]).value.1))
  {
    var quoted := "\"" + (EscapeEach(l.value) + "\"" + tail);
    UntilFindsKey(l.key, quoted);
    ParseUndoesEscape(l.value, tail);
    assert quoted[1..] == EscapeEach(l.value) + "\"" + tail;
  }

  lemma RenderedText(l: Label, tail: string)
    ensures (l.key + "=\"" + EscapeLabel(l.value) + "\"") + tail == PairText(l, tail)
  {
    EscapeIsPerCharacter(l.value);
    assert "=\"" == "=" + "\"";
  }

  lemma JoinText(head: string, middle: string, rest: string)
    ensures (head + "," + middle) + "}" + rest == head + ("," + ((middle + "}") + rest))
  {
  }

  lemma BracesText(middle: string, rest: string)
    ensures ("{" + middle + "}") + rest == "{" + ((middle + "}") + rest)
  {
  }

  lemma PairsText(labels: LabelSet, rest: string)
    requires labels != []
    ensures Pairs(labels) + rest
              == PairText(labels[0], if |labels| == 1 then "}" + rest else "," + (Pairs(labels[1..]) + rest))
  {
    var parts := Rendered(labels);
    if |labels| == 1 {
      assert parts[0] + "}" + rest == parts[0] + ("}" + rest);
      RenderedText(labels[0], "}" + rest);
    } else {
      assert parts[1..] == Rendered(labels[1..]);
      JoinText(parts[0], Join(parts[1..], ","), rest);
      RenderedText(labels[0], "," + (Pairs(labels[1..]) + rest));
    }
  }

  lemma {:induction false} ParsePairsUndoesJoin(labels: LabelSet, rest: string)
    requires labels != [] && ProperKeys(labels)
    ensures ParsePairs(Pairs(labels) + rest) == Some((labels, rest))
  {
    PairsText(labels, rest);
    if |labels| == 1 {
      ParseOnePair(labels[0], "}" + rest);
      assert ("}" + rest)[1..] == rest && labels == [labels[0]];
    } else {
      var tail := "," + (Pairs(labels[1..]) + rest);
      ParsePairsUndoesJoin(labels[1..], rest);
      assert tail[1..] == Pairs(labels[1..]) + rest;
      ParseOnePair(labels[0], tail);
      assert labels == [labels[0]] + labels[1..];
    }
  }

  // A parser recovers each printed label set, whatever its values contain and whatever follows it on the line.
  lemma ParseUndoesFormat(labels: LabelSet, rest: string)
    requires ProperKeys(labels) && (rest != "" ==> rest[0] != '{')
    ensures ParseLabels(FormatLabels(labels) + rest) == Some((labels, rest))
  {
    if labels == [] {
      assert FormatLabels(labels) + rest == rest;
    } else {
      BracesText(Join(Rendered(labels), ","), rest);
      assert ("{" + (Pairs(labels) + rest))[1..] == Pairs(labels) + rest;
      ParsePairsUndoesJoin(labels, rest);
    }
  }

  // The line of one series, as render_prometheus prints it.
  function SampleLine(name: string, labels: LabelSet, value: string): string
  {
    name + (FormatLabels(labels) + (" " + value))
  }

  // A metric name ends where the labels or the value begin.
  function ParseName(s: string): (string, string)
  {
    if s == "" || s[0] == '{' || s[0] == ' ' then ("", s)
    else
      var (name, rest) := ParseName(s[1..]);
      ([s[0]] + name, rest)
  }

  function ParseSample(line: string): Option<(string, LabelSet, string)>
  {
    var (name, rest) := ParseName(line);
    match ParseLabels(rest)
    case None => None
    case Some((labels, end)) =>
      if end == "" || end[0] != ' ' then None else Some((name, labels, end[1..]))
  }

  // Metric names as the format has them: without the characters that end them.
  predicate ProperName(name: string)
  {
    forall i :: 0 <= i < |name| ==> name[i] != '{' && name[i] != ' '
  }

  lemma {:induction false} ParseNameUndoes(name: string, rest: string)
    requires ProperName(name) && rest != "" && (rest[0] == '{' || rest[0] == ' ')
    ensures ParseName(name + rest) == (name, rest)
  {
    if name == "" {
      assert name + rest == rest;
    } else {
      ParseNameUndoes(name[1..], rest);
      assert (name + rest)[1..] == name[1..] + rest;
      assert [name[0]] + name[1..] == name;
    }
  }

  // A parser recovers name, labels and value from the line of a series.
  lemma SampleRoundTrip(name: string, labels: LabelSet, value: string)
    requires ProperName(name) && ProperKeys(labels)
    ensures ParseSample(SampleLine(name, labels, value)) == Some((name, labels, value))
  {
    var rest := FormatLabels(labels) + (" " + value);
    assert rest[0] == if labels == [] then ' ' else '{';
    ParseNameUndoes(name, rest);
    ParseUndoesFormat(labels, " " + value);
    assert (" " + value)[1..] == value;
  }

  // Distinct series of a metric print differently.
  lemma DistinctSeriesPrintDifferently(a: LabelSet, b: LabelSet, name: string, valueA: string, valueB: string)
    requires ProperKeys(a) && ProperKeys(b) && a != b
    ensures SampleLine(name, a, valueA) != SampleLine(name, b, valueB)
  {
    ParseUndoesFormat(a, " " + valueA);
    ParseUndoesFormat(b, " " + valueB);
    assert SampleLine(name, a, valueA)[|name|..] == FormatLabels(a) + (" " + valueA);
    assert SampleLine(name, b, valueB)[|name|..] == FormatLabels(b) + (" " + valueB);
  }

  // ----- Series -----

  // Python's order of strings, and of (key, value) pairs.
  predicate AtMost(a: string, b: string)
  {
    a == "" || (b != "" && (a[0] < b[0] || (a[0] == b[0] && AtMost(a[1..], b[1..]))))
  }

  predicate LabelAtMost(a: Label, b: Label)
  {
    if a.key == b.key then AtMost(a.value, b.value) else AtMost(a.key, b.key)
  }

  lemma {:induction false} AtMostIsTotalOrder(a: string, b: string, c: string)
    ensures AtMost(a, b) || AtMost(b, a)
    ensures AtMost(a, b) && AtMost(b, a) ==> a == b
    ensures AtMost(a, b) && AtMost(b, c) ==> AtMost(a, c)
  {
    if a != "" && b != "" {
      AtMostIsTotalOrder(a[1..], b[1..], if c == "" then "" else c[1..]);
      assert a == [a[0]] + a[1..] && b == [b[0]] + b[1..];
    }
  }

  lemma LabelOrderIsTotal(a: Label, b: Label, c: Label)
    ensures LabelAtMost(a, b) || LabelAtMost(b, a)
    ensures LabelAtMost(a, b) && LabelAtMost(b, a) ==> a == b
    ensures LabelAtMost(a, b) && LabelAtMost(b, c) ==> LabelAtMost(a, c)
  {
    AtMostIsTotalOrder(a.key, b.key, c.key);
    AtMostIsTotalOrder(b.key, c.key, a.key);
    AtMostIsTotalOrder(a.value, b.value, c.value);
  }

  function InsertLabel(l: Label, s: LabelSet): (r: LabelSet)
    ensures multiset(r) == multiset(s) + multiset{l}
  {
    if s == [] then [l]
    else if LabelAtMost(l, s[0]) then
      assert [l] + s == [l] + ([s[0]] + s[1..]);
      [l] + s
    else
      assert s == [s[0]] + s[1..];
      [s[0]] + InsertLabel(l, s[1..])
  }

  // _label_set: the items of the mapping, in whatever order the caller gave them, sorted.
  function LabelSetOf(items: seq<Label>): (r: LabelSet)
    ensures multiset(r) == multiset(items)
  {
    if items == [] then []
    else
      assert items == [items[0]] + items[1..];
      InsertLabel(items[0], LabelSetOf(items[1..]))
  }

  ghost predicate Ascending(s: LabelSet)
  {
    forall i, j :: 0 <= i < j < |s| ==> LabelAtMost(s[i], s[j])
  }

  lemma {:induction false} InsertLabelAscends(l: Label, s: LabelSet)
    requires Ascending(s)
    ensures Ascending(InsertLabel(l, s))
  {
    if s != [] {
      var rest := InsertLabel(l, s[1..]);
      InsertLabelAscends(l, s[1..]);
      LabelOrderIsTotal(l, s[0], s[0]);
      forall j | 0 <= j < |rest| ensures LabelAtMost(l, s[0]) || LabelAtMost(s[0], rest[j]) {
        assert rest[j] in multiset(rest);
        assert rest[j] == l || rest[j] in s[1..];
      }
      forall j | 0 <= j < |s| ensures LabelAtMost(l, s[0]) ==> LabelAtMost(l, s[j]) {
        LabelOrderIsTotal(l, s[0], s[j]);
      }
    }
  }

  lemma {:induction false} LabelSetAscends(items: seq<Label>)
    ensures Ascending(LabelSetOf(items))
  {
    if items != [] {
      LabelSetAscends(items[1..]);
      InsertLabelAscends(items[0], LabelSetOf(items[1..]));
    }
  }

  // a comes before b in a dictionary, or is b.
  ghost predicate InDictionaryOrder(a: string, b: string)
  {
    a <= b || exists i: nat :: FirstDifferAt(a, b, i) && a[i] < b[i]
  }

  ghost predicate FirstDifferAt(a: string, b: string, i: nat)
  {
    i < |a| && i < |b| && a[i] != b[i] && forall j :: 0 <= j < i ==> a[j] == b[j]
  }

  lemma DifferInTails(a: string, b: string, i: nat)
    requires a != "" && b != "" && a[0] == b[0]
    ensures FirstDifferAt(a, b, i + 1) <==> FirstDifferAt(a[1..], b[1..], i)
  {
    if FirstDifferAt(a[1..], b[1..], i) {
      forall j | 0 <= j < i + 1 ensures a[j] == b[j] {
        if j > 0 { assert a[1..][j-1] == b[1..][j-1]; }
      }
    }
  }

  lemma {:induction false} AtMostIsDictionaryOrder(a: string, b: string)
    ensures AtMost(a, b) <==> InDictionaryOrder(a, b)
  {
    if a != "" && b != "" {
      var s, t := a[1..], b[1..];
      if a[0] == b[0] {
        AtMostIsDictionaryOrder(s, t);
        assert a <= b <==> s <= t by { assert a == [a[0]] + s && b == [b[0]] + t; }
        if i: nat :| FirstDifferAt(s, t, i) && s[i] < t[i] { DifferInTails(a, b, i); }
        if i: nat :| FirstDifferAt(a, b, i) && a[i] < b[i] { DifferInTails(a, b, i - 1); }
      } else {
        assert a[0] < b[0] ==> FirstDifferAt(a, b, 0);
      }
    }
  }

  // A label set is sorted by name, and by value under the same name.
  lemma LabelSetIsSorted(items: seq<Label>, i: nat, j: nat)
    requires i < j < |LabelSetOf(items)|
    ensures var a, b := LabelSetOf(items)[i], LabelSetOf(items)[j];
            if a.key == b.key then InDictionaryOrder(a.value, b.value) else InDictionaryOrder(a.key, b.key)
  {
    LabelSetAscends(items);
    var a, b := LabelSetOf(items)[i], LabelSetOf(items)[j];
    AtMostIsDictionaryOrder(a.value, b.value);
    AtMostIsDictionaryOrder(a.key, b.key);
  }

  lemma SameFirst(a: LabelSet, b: LabelSet)
    requires Ascending(a) && Ascending(b) && a != [] && b != [] && a[0] in b && b[0] in a
    ensures a[0] == b[0]
  {
    LabelOrderIsTotal(a[0], b[0], a[0]);
    var i :| 0 <= i < |a| && a[i] == b[0];
    var j :| 0 <= j < |b| && b[j] == a[0];
  }

  lemma {:induction false} AscendingIsUnique(a: LabelSet, b: LabelSet)
    requires Ascending(a) && Ascending(b) && multiset(a) == multiset(b)
    ensures a == b
  {
    SameMultisetSameSize(a, b);
    if a != [] {
      TailMultiset(a);
      TailMultiset(b);
      SameFirst(a, b);
      TailsAgree(a, b);
      AscendingIsUnique(a[1..], b[1..]);
      assert a == [a[0]] + a[1..] && b == [b[0]] + b[1..];
    }
  }

  // Two label mappings name the same series exactly when they hold the same pairs, in any order.
  lemma SameLabelSet(a: seq<Label>, b: seq<Label>)
    ensures LabelSetOf(a) == LabelSetOf(b) <==> multiset(a) == multiset(b)
  {
    LabelSetAscends(a);
    LabelSetAscends(b);
    if multiset(a) == multiset(b) {
      AscendingIsUnique(LabelSetOf(a), LabelSetOf(b));
    }
  }

  // The lines of two label mappings agree, for equal values, exactly when the mappings do.
  lemma SeriesIsItsLabels(a: seq<Label>, b: seq<Label>, name: string, value: string)
    requires ProperKeys(a) && ProperKeys(b)
    ensures SampleLine(name, LabelSetOf(a), value) == SampleLine(name, LabelSetOf(b), value) <==>
              multiset(a) == multiset(b)
  {
    SameLabelSet(a, b);
    if multiset(a) != multiset(b) {
      SortingKeepsKeysProper(a);
      SortingKeepsKeysProper(b);
      DistinctSeriesPrintDifferently(LabelSetOf(a), LabelSetOf(b), name, value, value);
    }
  }

  lemma SortingKeepsKeysProper(items: seq<Label>)
    requires ProperKeys(items)
    ensures ProperKeys(LabelSetOf(items))
  {
    var s := LabelSetOf(items);
    forall i, j | 0 <= i < |s| && 0 <= j < |s[i].key| ensures s[i].key[j] != '=' {
      assert s[i] in multiset(s);
      assert s[i] in items;
    }
  }

  // ----- The registry -----

  // increment adds, set_gauge replaces.
  datatype Update = Update(name: string, items: seq<Label>, amount: real, gauge: bool)

  type Series = (string, LabelSet)

  function SeriesOf(u: Update): Series { (u.name, LabelSetOf(u.items)) }

  // defaultdict(float): a series nobody has touched is 0.
  function ValueOf(values: map<Series, real>, s: Series): real
  {
    if s in values then values[s] else 0.0
  }

  function Updated(values: map<Series, real>, u: Update): map<Series, real>
  {
    values[SeriesOf(u) := if u.gauge then u.amount else ValueOf(values, SeriesOf(u)) + u.amount]
  }

  function Values(updates: seq<Update>): map<Series, real>
  {
    if updates == [] then map[] else Updated(Values(updates[..|updates|-1]), updates[|updates|-1])
  }

  lemma OneMoreUpdate(updates: seq<Update>, u: Update)
    ensures Values(updates + [u]) == Updated(Values(updates), u)
  {
    assert (updates + [u])[..|updates|] == updates;
  }

  // The last gauge setting of a series, plus its increments since.
  function OwnValue(updates: seq<Update>, name: string, items: seq<Label>): real
  {
    if updates == [] then 0.0
    else
      var n := |updates| - 1;
      var u := updates[n];
      if u.name != name || multiset(u.items) != multiset(items) then OwnValue(updates[..n], name, items)
      else if u.gauge then u.amount
      else OwnValue(updates[..n], name, items) + u.amount
  }

  // A series has the value its own updates give it, however their callers ordered the labels, and no
  // other update touches it.
  lemma {:induction false} SeriesAreIndependent(updates: seq<Update>, name: string, items: seq<Label>)
    ensures ValueOf(Values(updates), (name, LabelSetOf(items))) == OwnValue(updates, name, items)
  {
    if updates != [] {
      var n := |updates| - 1;
      SeriesAreIndependent(updates[..n], name, items);
      SameLabelSet(updates[n].items, items);
    }
  }

  class MetricsRegistry {
    var values: map<Series, real>
    ghost var updates: seq<Update>

    ghost predicate Valid()
      reads this
    {
      values == Values(updates)
    }

    constructor ()
      ensures Valid() && updates == []
    {
      values, updates := map[], [];
    }

    method Increment(name: string, items: seq<Label>, amount: real)
      requires Valid()
      modifies this
      ensures Valid() && updates == old(updates) + [Update(name, items, amount, false)]
    {
      var u := Update(name, items, amount, false);
      var series := SeriesOf(u);
      OneMoreUpdate(updates, u);
      values := values[series := ValueOf(values, series) + amount];
      assert values == Updated(old(values), u);
      updates := updates + [u];
    }

    method SetGauge(name: string, items: seq<Label>, value: real)
      requires Valid()
      modifies this
      ensures Valid() && updates == old(updates) + [Update(name, items, value, true)]
    {
      var u := Update(name, items, value, true);
      OneMoreUpdate(updates, u);
      values := values[SeriesOf(u) := value];
      updates := updates + [u];
    }
  }
}
