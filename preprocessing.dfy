/** The deterministic parts of `DisasterDataPreprocessor`: the rule-based severity
    labels, the substitution of unseen categories by 'Unknown' when encoding a new
    input, the fixed feature order, and the column-name normalisation. */
module Preprocessing {
  import opened Common
  import opened Text
  import opened Resources

  // ---------------------------------------------------------------------------
  // Severity labels (`create_severity_labels`)
  // ---------------------------------------------------------------------------

  /** The numeric cells of one row of the frame, by column name. */
  type Row = map<string, int>

  /** `row.get(name, 0)`: a missing column reads as 0. */
  function Field(row: Row, name: string): int
  {
    if name in row then row[name] else 0
  }

  /** One entry of `severity_thresholds`. */
  datatype Thresholds = Thresholds(low: int, medium: int)

  const DeathThresholds: Thresholds := Thresholds(10, 100)
  const AffectedThresholds: Thresholds := Thresholds(1000, 10000)
  const DamageThresholds: Thresholds := Thresholds(1000000, 10000000)

  /** 3 at or above the medium threshold, 2 at or above the low one, 1 below. */
  function SubScore(v: int, t: Thresholds): (s: int)
    requires t.low <= t.medium
    ensures s == 3 <==> v >= t.medium
    ensures s == 2 <==> t.low <= v < t.medium
    ensures s == 1 <==> v < t.low
  {
    if v >= t.medium then 3 else if v >= t.low then 2 else 1
  }

  /** The score the first loop of `create_severity_labels` computes for one row. */
  function SeverityScore(row: Row): (score: int)
    ensures 3 <= score <= 9
  {
    SubScore(Field(row, "deaths"), DeathThresholds)
    + SubScore(Field(row, "people_affected"), AffectedThresholds)
    + SubScore(Field(row, "damages"), DamageThresholds)
  }

  /** The label the second loop assigns to a score. */
  function LabelFor(score: int): (s: Severity)
    ensures s == High <==> score >= 7
    ensures s == Medium <==> 5 <= score < 7
    ensures s == Low <==> score < 5
  {
    if score >= 7 then High else if score >= 5 then Medium else Low
  }

  function SeverityLabel(row: Row): Severity
  {
    LabelFor(SeverityScore(row))
  }

  /** Low < Medium < High. */
  function LabelRank(s: Severity): int
  {
    match s
    case High => 2
    case Medium => 1
    case _ => 0
  }

  /** `create_severity_labels`: one score per row, then one label per score; the
      labels become the frame's `severity` column, in row order. */
  method CreateSeverityLabels(rows: seq<Row>) returns (labels: seq<Severity>)
    ensures |labels| == |rows|
    ensures forall i :: 0 <= i < |rows| ==> labels[i] == SeverityLabel(rows[i])
  {
    var scores: seq<int> := [];
    for i := 0 to |rows|
      invariant |scores| == i
      invariant forall k :: 0 <= k < i ==> scores[k] == SeverityScore(rows[k])
    {
      var row := rows[i];
      var score := 0;
      var deaths := Field(row, "deaths");
      if deaths >= DeathThresholds.medium {
        score := score + 3;
      } else if deaths >= DeathThresholds.low {
        score := score + 2;
      } else {
        score := score + 1;
      }
      var affected := Field(row, "people_affected");
      if affected >= AffectedThresholds.medium {
        score := score + 3;
      } else if affected >= AffectedThresholds.low {
        score := score + 2;
      } else {
        score := score + 1;
      }
      var damages := Field(row, "damages");
      if damages >= DamageThresholds.medium {
        score := score + 3;
      } else if damages >= DamageThresholds.low {
        score := score + 2;
      } else {
        score := score + 1;
      }
      scores := scores + [score];
    }
    labels := [];
    for i := 0 to |scores|
      invariant |labels| == i
      invariant forall k :: 0 <= k < i ==> labels[k] == LabelFor(scores[k])
    {
      var s: Severity;
      if scores[i] >= 7 {
        s := High;
      } else if scores[i] >= 5 {
        s := Medium;
      } else {
        s := Low;
      }
      labels := labels + [s];
    }
  }

  /** The label reads only the three metrics: rows that agree on deaths, people
      affected and damages (a missing column counting as 0) get the same label. */
  lemma LabelReadsOnlyThreeMetrics(a: Row, b: Row)
    requires Field(a, "deaths") == Field(b, "deaths")
    requires Field(a, "people_affected") == Field(b, "people_affected")
    requires Field(a, "damages") == Field(b, "damages")
    ensures SeverityLabel(a) == SeverityLabel(b)
  {
  }

  /** A row with none of the three columns scores 3 and is labelled Low. */
  lemma EmptyRowIsLow()
    ensures SeverityScore(map[]) == 3 && SeverityLabel(map[]) == Low
  {
  }

  /** Raising any metric never lowers the label. */
  lemma LabelIsMonotone(a: Row, b: Row)
    requires Field(a, "deaths") <= Field(b, "deaths")
    requires Field(a, "people_affected") <= Field(b, "people_affected")
    requires Field(a, "damages") <= Field(b, "damages")
    ensures SeverityScore(a) <= SeverityScore(b)
    ensures LabelRank(SeverityLabel(a)) <= LabelRank(SeverityLabel(b))
  {
    SubScoreIsMonotone(Field(a, "deaths"), Field(b, "deaths"), DeathThresholds);
    SubScoreIsMonotone(Field(a, "people_affected"), Field(b, "people_affected"), AffectedThresholds);
    SubScoreIsMonotone(Field(a, "damages"), Field(b, "damages"), DamageThresholds);
  }

  lemma SubScoreIsMonotone(v: int, w: int, t: Thresholds)
    requires t.low <= t.medium && v <= w
    ensures SubScore(v, t) <= SubScore(w, t)
  {
  }

  /** Every score from 3 to 9 occurs, and each threshold is inclusive. */
  lemma ThresholdsAreInclusive()
    ensures SeverityScore(map["deaths" := 100, "people_affected" := 10000, "damages" := 10000000]) == 9
    ensures SeverityScore(map["deaths" := 99, "people_affected" := 9999, "damages" := 9999999]) == 6
    ensures SeverityLabel(map["deaths" := 10, "people_affected" := 1000, "damages" := 1000000]) == Medium
    ensures SeverityLabel(map["deaths" := 100]) == Medium
    ensures SeverityLabel(map["deaths" := 100, "people_affected" := 10000, "damages" := 1000000]) == High
  {
    var m1 := map["deaths" := 100, "people_affected" := 10000, "damages" := 10000000];
    assert Field(m1, "deaths") == 100 && Field(m1, "people_affected") == 10000 && Field(m1, "damages") == 10000000;
    var m2 := map["deaths" := 99, "people_affected" := 9999, "damages" := 9999999];
    assert Field(m2, "deaths") == 99 && Field(m2, "people_affected") == 9999 && Field(m2, "damages") == 9999999;
    var m3 := map["deaths" := 10, "people_affected" := 1000, "damages" := 1000000];
    assert Field(m3, "deaths") == 10 && Field(m3, "people_affected") == 1000 && Field(m3, "damages") == 1000000;
    var m4 := map["deaths" := 100];
    assert Field(m4, "deaths") == 100 && "people_affected" !in m4 && "damages" !in m4;
    var m5 := map["deaths" := 100, "people_affected" := 10000, "damages" := 1000000];
    assert Field(m5, "deaths") == 100 && Field(m5, "people_affected") == 10000 && Field(m5, "damages") == 1000000;
  }

  // ---------------------------------------------------------------------------
  // Encoding a new input (`encode_categorical_features(df, fit=False)`)
  // ---------------------------------------------------------------------------

  /** A column of the frame: text cells, or integers (the codes an encoder produced,
      or a numeric column). */
  datatype Column = Text(cells: seq<string>) | Ints(values: seq<int>)

  type Frame = map<string, Column>

  const CategoricalColumns: seq<string> := ["disaster_type", "state", "district"]

  /** A fitted `LabelEncoder`: the code of a value is its position in `classes`. */
  datatype Encoder = Encoder(classes: seq<string>)

  /** `transform` on a value not in `classes` raises ValueError. */
  datatype EncodeError = ValueError

  /** The first position of `x` in `s`. */
  function IndexOf<T(==)>(s: seq<T>, x: T): (r: Option<nat>)
    ensures r.Some? ==> r.value < |s| && s[r.value] == x
    ensures r.Some? ==> forall j :: 0 <= j < r.value ==> s[j] != x
    ensures r.None? <==> x !in s
  {
    if s == [] then None
    else if s[0] == x then Some(0)
    else match IndexOf(s[1..], x)
      case None => None
      case Some(i) => Some(i + 1)
  }

  function DigitChar(d: nat): char
    requires d < 10
  {
    "0123456789"[d]
  }

  function NatToText(n: nat): string
  {
    if n < 10 then [DigitChar(n)] else NatToText(n / 10) + [DigitChar(n % 10)]
  }

  /** `str(n)` for an integer. */
  function IntToText(n: int): string
  {
    if n < 0 then "-" + NatToText(-n) else NatToText(n)
  }

  /** `df[col].astype(str)`. */
  function AsText(c: Column): (r: seq<string>)
    ensures c.Text? ==> r == c.cells
  {
    match c
    case Text(cells) => cells
    case Ints(values) => seq(|values|, i requires 0 <= i < |values| => IntToText(values[i]))
  }

  /** The lambda `x if x in known_values else 'Unknown'`. */
  function Substitute(x: string, classes: seq<string>): string
  {
    if x in classes then x else "Unknown"
  }

  /** `LabelEncoder.transform`: every value's code, or ValueError if one is unknown. */
  function Transform(values: seq<string>, enc: Encoder): (r: Result<seq<int>, EncodeError>)
    ensures r.Success? <==> forall i :: 0 <= i < |values| ==> values[i] in enc.classes
    ensures r.Success? ==> |r.value| == |values|
    ensures r.Success? ==> forall i :: 0 <= i < |values| ==>
      0 <= r.value[i] < |enc.classes| && enc.classes[r.value[i]] == values[i]
  {
    if values == [] then Success([])
    else
      match IndexOf(enc.classes, values[0])
      case None => Failure(ValueError)
      case Some(code) =>
        match Transform(values[1..], enc)
        case Failure(e) => Failure(e)
        case Success(rest) =>
          assert forall i :: 1 <= i < |values| ==> values[i] == values[1..][i - 1];
          Success([code as int] + rest)
  }

  /** The body of the loop for one categorical column: unseen values are replaced
      by 'Unknown' (only when there are any) and the column is then transformed. */
  function EncodeColumn(values: seq<string>, enc: Encoder): Result<seq<int>, EncodeError>
  {
    var unseen := exists i :: 0 <= i < |values| && values[i] !in enc.classes;
    var cells := if unseen
      then seq(|values|, i requires 0 <= i < |values| => Substitute(values[i], enc.classes))
      else values;
    Transform(cells, enc)
  }

  /** The column encodes exactly when every value is known or 'Unknown' is a fitted
      class; each code then names the value itself when it was seen at fit time and
      'Unknown' otherwise. */
  lemma EncodeColumnSpec(values: seq<string>, enc: Encoder)
    ensures EncodeColumn(values, enc).Success? <==>
      (forall i :: 0 <= i < |values| ==> values[i] in enc.classes) || "Unknown" in enc.classes
    ensures EncodeColumn(values, enc).Success? ==>
      var codes := EncodeColumn(values, enc).value;
      && |codes| == |values|
      && forall i :: 0 <= i < |values| ==>
        0 <= codes[i] < |enc.classes| && enc.classes[codes[i]] == Substitute(values[i], enc.classes)
  {
    var unseen := exists i :: 0 <= i < |values| && values[i] !in enc.classes;
    if unseen {
      var k :| 0 <= k < |values| && values[k] !in enc.classes;
      var cells := seq(|values|, i requires 0 <= i < |values| => Substitute(values[i], enc.classes));
      assert cells[k] == "Unknown";
    } else {
      forall i | 0 <= i < |values| ensures Substitute(values[i], enc.classes) == values[i] {
      }
    }
  }

  /** The category columns of `frame` that this call encodes. */
  predicate Encodes(frame: Frame, encoders: map<string, Encoder>, col: string)
  {
    col in CategoricalColumns && col in frame && col in encoders
  }

  /** Column `col` once the columns in `done` have been encoded: the codes of its
      cells if it is one of them, has an encoder and encodes, and otherwise unchanged. */
  function EncodedAfter(frame: Frame, encoders: map<string, Encoder>, col: string, done: seq<string>): Column
    requires col in frame
  {
    if Encodes(frame, encoders, col) && col in done then
      match EncodeColumn(AsText(frame[col]), encoders[col])
      case Success(codes) => Ints(codes)
      case Failure(_) => frame[col]
    else frame[col]
  }

  /** `encode_categorical_features(df, fit=False)` on a copy of the frame. */
  method EncodeCategoricalFeatures(frame: Frame, encoders: map<string, Encoder>)
    returns (res: Result<Frame, EncodeError>)
    ensures res.Success? <==> forall col :: Encodes(frame, encoders, col) ==>
      EncodeColumn(AsText(frame[col]), encoders[col]).Success?
    ensures res.Success? ==> res.value.Keys == frame.Keys
    ensures res.Success? ==> forall col :: col in frame ==>
      res.value[col] == EncodedAfter(frame, encoders, col, CategoricalColumns)
  {
    var encoded := frame;
    for k := 0 to |CategoricalColumns|
      invariant encoded.Keys == frame.Keys
      invariant forall j :: 0 <= j < k && Encodes(frame, encoders, CategoricalColumns[j]) ==>
        EncodeColumn(AsText(frame[CategoricalColumns[j]]), encoders[CategoricalColumns[j]]).Success?
      invariant forall col :: col in frame ==>
        encoded[col] == EncodedAfter(frame, encoders, col, CategoricalColumns[..k])
    {
      var col := CategoricalColumns[k];
      assert CategoricalColumns[..k + 1] == CategoricalColumns[..k] + [col];
      assert col !in CategoricalColumns[..k];
      if col in encoded && col in encoders {
        var codes := EncodeColumn(AsText(encoded[col]), encoders[col]);
        if codes.Failure? {
          return Failure(codes.error);
        }
        encoded := encoded[col := Ints(codes.value)];
      }
    }
    assert CategoricalColumns[..|CategoricalColumns|] == CategoricalColumns;
    return Success(encoded);
  }

  /** A value never seen at fit time is given the code of 'Unknown'. */
  lemma UnseenBecomesUnknown(values: seq<string>, enc: Encoder, i: int)
    requires 0 <= i < |values| && values[i] !in enc.classes
    requires "Unknown" in enc.classes
    ensures EncodeColumn(values, enc).Success?
    ensures enc.classes[EncodeColumn(values, enc).value[i]] == "Unknown"
  {
    EncodeColumnSpec(values, enc);
  }

  // ---------------------------------------------------------------------------
  // Feature order (`prepare_features_and_target`, `preprocess_single_input`)
  // ---------------------------------------------------------------------------

  const FeatureColumns: seq<string> :=
    ["year", "disaster_type", "state", "district", "people_affected", "deaths", "damages"]

  /** `[col for col in cols if col in present]`. */
  function Present<T(==)>(cols: seq<T>, present: set<T>): seq<T>
  {
    if cols == [] then []
    else if cols[0] in present then [cols[0]] + Present(cols[1..], present)
    else Present(cols[1..], present)
  }

  /** The feature columns of a frame with the given column names, in fixed order. */
  function AvailableFeatures(columns: set<string>): seq<string>
  {
    Present(FeatureColumns, columns)
  }

  /** Position of a column in `cols` (its first occurrence). */
  function PositionIn<T(==)>(cols: seq<T>, x: T): int
  {
    match IndexOf(cols, x)
    case Some(i) => i
    case None => -1
  }

  /** Filtering keeps exactly the present columns. */
  lemma {:induction false} PresentMembers<T>(cols: seq<T>, present: set<T>)
    ensures forall x :: x in Present(cols, present) <==> x in cols && x in present
  {
    if cols != [] {
      PresentMembers(cols[1..], present);
      assert cols == [cols[0]] + cols[1..];
    }
  }

  /** Behind a distinct head, a column's position is one more than in the tail. */
  lemma PositionShift<T>(cols: seq<T>, x: T)
    requires cols != [] && x in cols[1..] && x != cols[0]
    ensures PositionIn(cols, x) == PositionIn(cols[1..], x) + 1 >= 1
  {
  }

  lemma TailHasNoDuplicates<T>(cols: seq<T>)
    requires cols != [] && NoDuplicates(cols)
    ensures NoDuplicates(cols[1..]) && cols[0] !in cols[1..]
  {
    var tail := cols[1..];
    forall i, j | 0 <= i < j < |tail| ensures tail[i] != tail[j] {
      assert tail[i] == cols[i + 1] && tail[j] == cols[j + 1];
    }
    forall k | 0 <= k < |tail| ensures tail[k] != cols[0] {
      assert tail[k] == cols[k + 1];
    }
  }

  /** Filtering keeps the order the columns have in `cols`. */
  lemma {:induction false} PresentKeepsOrder<T>(cols: seq<T>, present: set<T>)
    requires NoDuplicates(cols)
    ensures forall i, j :: 0 <= i < j < |Present(cols, present)| ==>
      PositionIn(cols, Present(cols, present)[i]) < PositionIn(cols, Present(cols, present)[j])
  {
    if cols != [] {
      TailHasNoDuplicates(cols);
      PresentKeepsOrder(cols[1..], present);
      forall i, j | 0 <= i < j < |Present(cols, present)|
        ensures PositionIn(cols, Present(cols, present)[i]) < PositionIn(cols, Present(cols, present)[j])
      {
        OrderStep(cols, present, i, j);
      }
    }
  }

  /** One pair of the induction step of `PresentKeepsOrder`. */
  lemma OrderStep<T>(cols: seq<T>, present: set<T>, i: int, j: int)
    requires cols != [] && cols[0] !in cols[1..]
    requires forall a, b :: 0 <= a < b < |Present(cols[1..], present)| ==>
      PositionIn(cols[1..], Present(cols[1..], present)[a]) < PositionIn(cols[1..], Present(cols[1..], present)[b])
    requires 0 <= i < j < |Present(cols, present)|
    ensures PositionIn(cols, Present(cols, present)[i]) < PositionIn(cols, Present(cols, present)[j])
  {
    if cols[0] !in present {
      DroppedStep(cols, present, i, j);
    } else if i == 0 {
      HeadKeptStep(cols, present, j);
    } else {
      KeptStep(cols, present, i, j);
    }
  }

  /** The head is filtered out: positions shift by one. */
  lemma DroppedStep<T>(cols: seq<T>, present: set<T>, i: int, j: int)
    requires cols != [] && cols[0] !in cols[1..] && cols[0] !in present
    requires 0 <= i < j < |Present(cols[1..], present)|
    requires PositionIn(cols[1..], Present(cols[1..], present)[i]) < PositionIn(cols[1..], Present(cols[1..], present)[j])
    ensures PositionIn(cols, Present(cols, present)[i]) < PositionIn(cols, Present(cols, present)[j])
  {
    var tail := cols[1..];
    var rest := Present(tail, present);
    assert Present(cols, present) == rest;
    PresentElement(tail, present, i);
    PresentElement(tail, present, j);
    ShiftedOrder(cols, rest[i], rest[j]);
  }

  /** The head is kept and is the first of the pair. */
  lemma HeadKeptStep<T>(cols: seq<T>, present: set<T>, j: int)
    requires cols != [] && cols[0] !in cols[1..] && cols[0] in present
    requires 0 < j < |Present(cols, present)|
    ensures PositionIn(cols, Present(cols, present)[0]) < PositionIn(cols, Present(cols, present)[j])
  {
    var tail := cols[1..];
    var rest := Present(tail, present);
    assert Present(cols, present) == [cols[0]] + rest;
    PresentElement(tail, present, j - 1);
    HeadFirst(cols, rest[j - 1]);
  }

  /** The head is kept and neither of the pair is the head. */
  lemma KeptStep<T>(cols: seq<T>, present: set<T>, i: int, j: int)
    requires cols != [] && cols[0] !in cols[1..] && cols[0] in present
    requires 0 < i < j <= |Present(cols[1..], present)|
    requires PositionIn(cols[1..], Present(cols[1..], present)[i - 1])
      < PositionIn(cols[1..], Present(cols[1..], present)[j - 1])
    ensures i < j < |Present(cols, present)|
    ensures PositionIn(cols, Present(cols, present)[i]) < PositionIn(cols, Present(cols, present)[j])
  {
    var tail := cols[1..];
    var rest := Present(tail, present);
    assert Present(cols, present) == [cols[0]] + rest;
    PresentElement(tail, present, i - 1);
    PresentElement(tail, present, j - 1);
    ShiftedOrder(cols, rest[i - 1], rest[j - 1]);
  }

  /** The head comes before every tail column. */
  lemma HeadFirst<T>(cols: seq<T>, y: T)
    requires cols != [] && cols[0] !in cols[1..] && y in cols[1..]
    ensures PositionIn(cols, cols[0]) < PositionIn(cols, y)
  {
    HeadPosition(cols);
    PositionShift(cols, y);
  }

  /** Every kept column comes from `cols`. */
  lemma {:induction false} PresentElement<T>(cols: seq<T>, present: set<T>, k: int)
    requires 0 <= k < |Present(cols, present)|
    ensures Present(cols, present)[k] in cols
  {
    if cols[0] in present {
      if k > 0 {
        PresentElement(cols[1..], present, k - 1);
      }
    } else {
      PresentElement(cols[1..], present, k);
    }
  }

  /** Two tail columns keep their relative order behind the head. */
  lemma ShiftedOrder<T>(cols: seq<T>, x: T, y: T)
    requires cols != [] && cols[0] !in cols[1..]
    requires x in cols[1..] && y in cols[1..]
    requires PositionIn(cols[1..], x) < PositionIn(cols[1..], y)
    ensures PositionIn(cols, x) < PositionIn(cols, y)
  {
    PositionShift(cols, x);
    PositionShift(cols, y);
  }

  lemma HeadPosition<T>(cols: seq<T>)
    requires cols != []
    ensures PositionIn(cols, cols[0]) == 0
  {
  }

  /** The selected features are exactly the feature columns the frame has, each once,
      in the order year, disaster_type, state, district, people_affected, deaths,
      damages. */
  lemma FeaturesInFixedOrder(columns: set<string>)
    ensures forall x :: x in AvailableFeatures(columns) <==> x in FeatureColumns && x in columns
    ensures NoDuplicates(AvailableFeatures(columns))
    ensures forall i, j :: 0 <= i < j < |AvailableFeatures(columns)| ==>
      PositionIn(FeatureColumns, AvailableFeatures(columns)[i])
        < PositionIn(FeatureColumns, AvailableFeatures(columns)[j])
  {
    PresentMembers(FeatureColumns, columns);
    PresentKeepsOrder(FeatureColumns, columns);
    var r := AvailableFeatures(columns);
    forall i, j | 0 <= i < j < |r| ensures r[i] != r[j] {
      assert PositionIn(FeatureColumns, r[i]) < PositionIn(FeatureColumns, r[j]);
    }
  }

  /** A frame with every feature column selects all seven, in the fixed order. */
  lemma AllFeaturesPresent(columns: set<string>)
    requires forall x :: x in FeatureColumns ==> x in columns
    ensures AvailableFeatures(columns) == FeatureColumns
  {
    PresentAll(FeatureColumns, columns);
  }

  lemma {:induction false} PresentAll<T>(cols: seq<T>, present: set<T>)
    requires forall i :: 0 <= i < |cols| ==> cols[i] in present
    ensures Present(cols, present) == cols
  {
    if cols != [] {
      assert cols[0] in present;
      PresentAll(cols[1..], present);
      assert cols == [cols[0]] + cols[1..];
    }
  }

  // ---------------------------------------------------------------------------
  // Column names (`clean_data`)
  // ---------------------------------------------------------------------------

  /** `name.lower().replace(' ', '_')`. */
  function NormaliseColumnName(name: string): (r: string)
    ensures |r| == |name|
    ensures forall i :: 0 <= i < |r| ==> r[i] != ' ' && !IsAsciiUpper(r[i])
  {
    var lower := ToLower(name);
    seq(|lower|, i requires 0 <= i < |lower| => if lower[i] == ' ' then '_' else lower[i])
  }

  /** `df_clean.columns = ...`: every column renamed, order kept. */
  function CleanColumnNames(columns: seq<string>): (r: seq<string>)
    ensures |r| == |columns|
    ensures forall i :: 0 <= i < |columns| ==> r[i] == NormaliseColumnName(columns[i])
  {
    seq(|columns|, i requires 0 <= i < |columns| => NormaliseColumnName(columns[i]))
  }

  /** Characters other than ASCII capitals and spaces are kept as they are; capitals
      become their lower-case letter and spaces become underscores. */
  lemma NormaliseCharacterwise(name: string, i: int)
    requires 0 <= i < |name|
    ensures name[i] == ' ' ==> NormaliseColumnName(name)[i] == '_'
    ensures IsAsciiUpper(name[i]) ==> NormaliseColumnName(name)[i] as int == name[i] as int + 32
    ensures !IsAsciiUpper(name[i]) && name[i] != ' ' ==> NormaliseColumnName(name)[i] == name[i]
  {
    assert ToLower(name)[i] == LowerChar(name[i]);
  }

  /** Normalising twice changes nothing more. */
  lemma NormaliseIsIdempotent(name: string)
    ensures NormaliseColumnName(NormaliseColumnName(name)) == NormaliseColumnName(name)
  {
    NormalisedNamesAreFixed(NormaliseColumnName(name));
  }

  /** A name that is already lower case without spaces, such as `people_affected`,
      is left as it is. */
  lemma NormalisedNamesAreFixed(name: string)
    requires forall i :: 0 <= i < |name| ==> name[i] != ' ' && !IsAsciiUpper(name[i])
    ensures NormaliseColumnName(name) == name
  {
    forall i | 0 <= i < |name| ensures NormaliseColumnName(name)[i] == name[i] {
      NormaliseCharacterwise(name, i);
    }
  }
}
