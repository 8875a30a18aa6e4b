// The risk-assessment and operating-instruction routes of
// src/element_routes.py: the risk score, the defaults for missing lists of
// measures, and the pairing of symbols with texts. The database tables are
// sequences of records; the request's clock reading and the id the
// database assigns are parameters.

module ElementRoutes {
  import opened Wrappers

  /** `frequency * severity * probability`; Python integers do not overflow. */
  function RiskScore(frequency: int, severity: int, probability: int): int
  {
    frequency * severity * probability
  }

  /**
   * The score does not depend on the order of the three ratings and is zero
   * exactly when one of them is.
   */
  lemma RiskScoreZero(f: int, s: int, p: int)
    ensures RiskScore(f, s, p) == RiskScore(s, f, p) == RiskScore(f, p, s)
    ensures RiskScore(f, s, p) == 0 <==> f == 0 || s == 0 || p == 0
  {
    MulZero(f, s);
    MulZero(f * s, p);
  }

  /**
   * For ratings of at least 1 the score is at least each rating, and it
   * grows strictly when the frequency does.
   */
  lemma RiskScoreGrows(f: int, s: int, p: int, f': int)
    requires s >= 1 && p >= 1
    ensures f >= 1 ==> RiskScore(f, s, p) >= f && RiskScore(f, s, p) >= s && RiskScore(f, s, p) >= p
    ensures f' > f ==> RiskScore(f', s, p) > RiskScore(f, s, p)
  {
    if f >= 1 {
      MulAtLeast(f, s);
      MulAtLeast(f * s, p);
    }
    if f' > f {
      MulGrows(f, f', s);
      MulGrows(f * s, f' * s, p);
    }
  }

  lemma MulZero(a: int, b: int)
    ensures a * b == 0 <==> a == 0 || b == 0
  {
    if a != 0 && b != 0 {
      if a > 0 && b > 0 {
        MulAtLeast(a, b);
      } else if a < 0 && b < 0 {
        MulAtLeast(-a, -b);
      } else if a < 0 {
        MulAtLeast(-a, b);
      } else {
        MulAtLeast(a, -b);
      }
    }
  }

  lemma MulAtLeast(a: int, b: int)
    requires a >= 1 && b >= 1
    ensures a * b >= a && a * b >= b
  {
    assert a * b == a * (b - 1) + a;
    assert a * b == (a - 1) * b + b;
  }

  lemma MulGrows(a: int, a': int, c: int)
    requires a' > a && c >= 1
    ensures a' * c > a * c
  {
    assert a' * c - a * c == (a' - a) * c;
    MulAtLeast(a' - a, c);
  }

  /** `measures or []`: a missing list becomes the empty list. */
  function OrEmpty(measures: Option<seq<string>>): (r: seq<string>)
    ensures measures.None? ==> r == []
    ensures measures.Some? ==> r == measures.value
  {
    if measures.None? then [] else measures.value
  }

  datatype Risk = Risk(
    id: int,
    elementId: int,
    description: string,
    frequency: int,
    severity: int,
    probability: int,
    riskScore: int,
    technicalMeasures: seq<string>,
    organizationalMeasures: seq<string>,
    personalMeasures: seq<string>,
    createdAt: string,
    updatedAt: string)

  /** The fields a create or update request submits. */
  datatype RiskForm = RiskForm(
    description: string,
    frequency: int,
    severity: int,
    probability: int,
    elementDbId: int,
    technicalMeasures: Option<seq<string>>,
    organizationalMeasures: Option<seq<string>>,
    personalMeasures: Option<seq<string>>)

  /** `create_risk`: one new row, inserted with id `newId` at time `now`. */
  function CreateRisk(risks: seq<Risk>, form: RiskForm, newId: int, now: string): seq<Risk>
  {
    risks + [Risk(newId, form.elementDbId, form.description, form.frequency, form.severity, form.probability,
                  RiskScore(form.frequency, form.severity, form.probability),
                  OrEmpty(form.technicalMeasures), OrEmpty(form.organizationalMeasures), OrEmpty(form.personalMeasures),
                  now, now)]
  }

  /** Row `k` satisfies `p` and no other row does. */
  predicate OnlyMatch<T>(rows: seq<T>, p: T -> bool, k: nat)
  {
    k < |rows| && p(rows[k]) && forall j :: 0 <= j < |rows| && j != k ==> !p(rows[j])
  }

  /**
   * `Table.fetchone(where=...)` of the database library: the index of the
   * one row that matches. When no row matches the library raises
   * `NotFoundError`, and when several do it raises `ValueError`; both are
   * `None` here.
   */
  function FetchOne<T>(rows: seq<T>, p: T -> bool): (r: Option<nat>)
    ensures r.Some? ==> OnlyMatch(rows, p, r.value)
    ensures r.None? <==> forall k :: 0 <= k < |rows| ==> !OnlyMatch(rows, p, k)
  {
    match FindIndex(rows, p)
    case None => None
    case Some(k) =>
      var rest := rows[k + 1..];
      assert forall j :: k < j < |rows| ==> rows[j] == rest[j - k - 1];
      match FindIndex(rest, p)
      case None => Some(k)
      case Some(m) =>
        assert p(rows[k]) && p(rows[k + 1 + m]);
        None
  }

  /**
   * `fetchone` raises when no row matches and when two rows do, and it
   * yields the row that is the only match.
   */
  lemma FetchOneCases<T>(rows: seq<T>, p: T -> bool)
    ensures (forall i :: 0 <= i < |rows| ==> !p(rows[i])) ==> FetchOne(rows, p).None?
    ensures (exists i, j :: 0 <= i < j < |rows| && p(rows[i]) && p(rows[j])) ==> FetchOne(rows, p).None?
    ensures forall k :: 0 <= k < |rows| && OnlyMatch(rows, p, k) ==> FetchOne(rows, p) == Some(k)
  {
    if exists i, j :: 0 <= i < j < |rows| && p(rows[i]) && p(rows[j]) {
      var i, j :| 0 <= i < j < |rows| && p(rows[i]) && p(rows[j]);
      forall k | 0 <= k < |rows|
        ensures !OnlyMatch(rows, p, k)
      {
        if k != i {
          assert !p(rows[i]) || !OnlyMatch(rows, p, k);
        }
      }
    }
    if forall i :: 0 <= i < |rows| ==> !p(rows[i]) {
      forall k | 0 <= k < |rows|
        ensures !OnlyMatch(rows, p, k)
      {
        assert !p(rows[k]);
      }
    }
  }

  /** The message of the `except` branch that every failed update ends in. */
  const SaveError := "Fehler beim Speichern"

  function Matches(riskId: int, elementDbId: int): Risk -> bool
  {
    (r: Risk) => r.id == riskId && r.elementId == elementDbId
  }

  /**
   * `update_risk`: the one row with this id that belongs to the element is
   * rewritten from the form, keeping its id, element and creation time.
   * When no row or several rows match, `fetchone` raises, the `except`
   * branch answers with the save error, and the table is unchanged; the
   * "not found" branch after `fetchone` is never reached.
   */
  function UpdateRisk(risks: seq<Risk>, riskId: int, form: RiskForm, now: string): Result<seq<Risk>>
  {
    match FetchOne(risks, Matches(riskId, form.elementDbId))
    case None => Failure(SaveError)
    case Some(k) =>
      var row := risks[k];
      Success(risks[k := row.(description := form.description, frequency := form.frequency, severity := form.severity,
                               probability := form.probability,
                               riskScore := RiskScore(form.frequency, form.severity, form.probability),
                               technicalMeasures := OrEmpty(form.technicalMeasures),
                               organizationalMeasures := OrEmpty(form.organizationalMeasures),
                               personalMeasures := OrEmpty(form.personalMeasures),
                               updatedAt := now)])
  }

  /**
   * Creating appends one row whose score is the product of the ratings and
   * whose missing lists are empty. Updating fails with the save error
   * exactly when no row, or more than one row, has this id and element;
   * otherwise it changes that one row, which then holds the new ratings,
   * score and lists, and no other row.
   */
  lemma RiskRoutesEffect(risks: seq<Risk>, form: RiskForm, riskId: int, newId: int, now: string)
    ensures var c := CreateRisk(risks, form, newId, now);
            |c| == |risks| + 1 && c[..|risks|] == risks
            && c[|risks|].riskScore == form.frequency * form.severity * form.probability
            && c[|risks|].id == newId && c[|risks|].elementId == form.elementDbId
            && (form.technicalMeasures.None? ==> c[|risks|].technicalMeasures == [])
            && (form.organizationalMeasures.None? ==> c[|risks|].organizationalMeasures == [])
            && (form.personalMeasures.None? ==> c[|risks|].personalMeasures == [])
    ensures var u := UpdateRisk(risks, riskId, form, now);
            (forall i :: 0 <= i < |risks| ==> !(risks[i].id == riskId && risks[i].elementId == form.elementDbId))
              ==> u == Failure(SaveError)
    ensures var u := UpdateRisk(risks, riskId, form, now);
            (exists i, j :: 0 <= i < j < |risks| && risks[i].id == riskId && risks[i].elementId == form.elementDbId
                                                 && risks[j].id == riskId && risks[j].elementId == form.elementDbId)
              ==> u == Failure(SaveError)
    ensures var u := UpdateRisk(risks, riskId, form, now);
            forall k :: 0 <= k < |risks| && OnlyMatch(risks, Matches(riskId, form.elementDbId), k) ==>
              u.Success? && |u.value| == |risks|
              && u.value[k].id == riskId && u.value[k].elementId == form.elementDbId
              && u.value[k].createdAt == risks[k].createdAt && u.value[k].updatedAt == now
              && u.value[k].riskScore == form.frequency * form.severity * form.probability
              && u.value[k].technicalMeasures == OrEmpty(form.technicalMeasures)
              && u.value[k].organizationalMeasures == OrEmpty(form.organizationalMeasures)
              && u.value[k].personalMeasures == OrEmpty(form.personalMeasures)
              && forall j :: 0 <= j < |risks| && j != k ==> u.value[j] == risks[j]
    ensures UpdateRisk(risks, riskId, form, now).Failure? ==> UpdateRisk(risks, riskId, form, now) == Failure(SaveError)
  {
    var c := CreateRisk(risks, form, newId, now);
    assert c[..|risks|] == risks;
    var m := Matches(riskId, form.elementDbId);
    FetchOneCases(risks, m);
    assert forall i :: 0 <= i < |risks| ==> (m(risks[i]) <==> risks[i].id == riskId && risks[i].elementId == form.elementDbId);
  }

  // ------------------------------------------------------------ pairing

  /** One `{"symbol": ..., "text": ...}` entry of an operating instruction. */
  datatype Item = Item(symbol: string, text: string)

  function Min(a: nat, b: nat): nat { if a <= b then a else b }

  /** Position `i` yields an item when both its symbol and its text are non-empty. */
  predicate Kept(symbols: seq<string>, texts: seq<string>, i: nat)
    requires i < |symbols| && i < |texts|
  {
    symbols[i] != "" && texts[i] != ""
  }

  /** The items the loop has produced after its first `n` rounds. */
  function PairedUpTo(symbols: seq<string>, texts: seq<string>, n: nat): seq<Item>
    requires n <= |symbols| && n <= |texts|
  {
    if n == 0 then []
    else PairedUpTo(symbols, texts, n - 1)
         + (if Kept(symbols, texts, n - 1) then [Item(symbols[n - 1], texts[n - 1])] else [])
  }

  /** The positions that yield items among the first `n`, in increasing order. */
  function KeptIndices(symbols: seq<string>, texts: seq<string>, n: nat): seq<nat>
    requires n <= |symbols| && n <= |texts|
  {
    if n == 0 then []
    else KeptIndices(symbols, texts, n - 1) + (if Kept(symbols, texts, n - 1) then [n - 1] else [])
  }

  /**
   * The items are exactly the pairs at the positions whose symbol and text
   * are both non-empty, one item per such position, in increasing order of
   * position.
   */
  lemma {:induction false} PairedUpToIsKeptPairs(symbols: seq<string>, texts: seq<string>, n: nat)
    requires n <= |symbols| && n <= |texts|
    ensures var items := PairedUpTo(symbols, texts, n);
            var idx := KeptIndices(symbols, texts, n);
            |items| == |idx|
            && (forall k :: 0 <= k < |idx| ==> idx[k] < n && items[k] == Item(symbols[idx[k]], texts[idx[k]]))
            && (forall k, l :: 0 <= k < l < |idx| ==> idx[k] < idx[l])
            && (forall i :: 0 <= i < n ==> (Kept(symbols, texts, i) <==> i in idx))
  {
    if n > 0 {
      PairedUpToIsKeptPairs(symbols, texts, n - 1);
    }
  }

  /**
   * The pairing of one category: nothing when either list is missing or
   * empty, otherwise the kept pairs among the first `min(len, len)`
   * positions.
   */
  function Pair(symbols: Option<seq<string>>, texts: Option<seq<string>>): seq<Item>
  {
    if symbols.None? || texts.None? || |symbols.value| == 0 || |texts.value| == 0 then []
    else
      var n := Min(|symbols.value|, |texts.value|);
      PairedUpTo(symbols.value, texts.value, n)
  }

  /** The loop of the route: for each common position, append the pair when both are non-empty. */
  method PairItems(symbols: Option<seq<string>>, texts: Option<seq<string>>) returns (items: seq<Item>)
    ensures items == Pair(symbols, texts)
  {
    items := [];
    if symbols.None? || texts.None? || |symbols.value| == 0 || |texts.value| == 0 {
      return;
    }
    var s := symbols.value;
    var t := texts.value;
    var n := Min(|s|, |t|);
    var i := 0;
    while i < n
      invariant 0 <= i <= n
      invariant items == PairedUpTo(s, t, i)
    {
      if s[i] != "" && t[i] != "" {
        items := items + [Item(s[i], t[i])];
      }
      i := i + 1;
    }
  }

  /** `item` pairs the non-empty symbol and text at one position of both lists. */
  ghost predicate PairedAt(item: Item, symbols: seq<string>, texts: seq<string>)
  {
    exists i :: 0 <= i < |symbols| && i < |texts| && item == Item(symbols[i], texts[i])
                && symbols[i] != "" && texts[i] != ""
  }

  /**
   * A missing or empty list yields no items; otherwise there are at most
   * as many items as the shorter list has entries, and every item is a
   * pair of non-empty strings found at the same position of both lists.
   */
  lemma PairBounds(symbols: Option<seq<string>>, texts: Option<seq<string>>)
    ensures symbols.None? || texts.None? ==> Pair(symbols, texts) == []
    ensures symbols.Some? && texts.Some? ==>
              |Pair(symbols, texts)| <= Min(|symbols.value|, |texts.value|)
              && forall k :: 0 <= k < |Pair(symbols, texts)| ==> PairedAt(Pair(symbols, texts)[k], symbols.value, texts.value)
  {
    if symbols.Some? && texts.Some? && |symbols.value| > 0 && |texts.value| > 0 {
      var s := symbols.value;
      var t := texts.value;
      var n := Min(|s|, |t|);
      assert Pair(symbols, texts) == PairedUpTo(s, t, n);
      PairedUpToIsKeptPairs(s, t, n);
      var idx := KeptIndices(s, t, n);
      IndicesBound(idx, n);
      var r := Pair(symbols, texts);
      forall k | 0 <= k < |r|
        ensures PairedAt(r[k], s, t)
      {
        var i := idx[k];
        assert i < n && r[k] == Item(s[i], t[i]);
        assert i in idx;
        assert Kept(s, t, i);
      }
    }
  }

  /** Strictly increasing positions below `n` number at most `n`. */
  lemma {:induction false} IndicesBound(idx: seq<nat>, n: nat)
    requires forall k :: 0 <= k < |idx| ==> idx[k] < n
    requires forall k, l :: 0 <= k < l < |idx| ==> idx[k] < idx[l]
    ensures |idx| <= n
  {
    if |idx| > 0 {
      var last := idx[|idx| - 1];
      var rest := idx[..|idx| - 1];
      assert forall k :: 0 <= k < |rest| ==> rest[k] < last;
      IndicesBound(rest, last);
    }
  }

  // -------------------------------------------------------- instructions

  datatype InstructionForm = InstructionForm(
    elementDbId: int,
    hazardSymbols: Option<seq<string>>,
    hazardTexts: Option<seq<string>>,
    protectionSymbols: Option<seq<string>>,
    protectionTexts: Option<seq<string>>,
    firstAidSymbols: Option<seq<string>>,
    firstAidTexts: Option<seq<string>>,
    emergencySymbols: Option<seq<string>>,
    emergencyTexts: Option<seq<string>>,
    maintenanceDisposal: string)

  datatype Instruction = Instruction(
    id: int,
    elementId: int,
    hazardSymbols: seq<Item>,
    protectionMeasures: seq<Item>,
    firstAid: seq<Item>,
    emergencyProcedures: seq<Item>,
    maintenanceDisposal: string,
    createdAt: string,
    updatedAt: string)

  /** `create_instructions`: one new row holding the four pairings. */
  function CreateInstructions(rows: seq<Instruction>, form: InstructionForm, newId: int, now: string): seq<Instruction>
  {
    rows + [Instruction(newId, form.elementDbId,
                        Pair(form.hazardSymbols, form.hazardTexts),
                        Pair(form.protectionSymbols, form.protectionTexts),
                        Pair(form.firstAidSymbols, form.firstAidTexts),
                        Pair(form.emergencySymbols, form.emergencyTexts),
                        form.maintenanceDisposal, now, now)]
  }

  function ForElement(elementDbId: int): Instruction -> bool
  {
    (r: Instruction) => r.elementId == elementDbId
  }

  /**
   * `update_instructions`: the element's one instruction is rewritten from
   * the form. When the element has no instruction, or several, `fetchone`
   * raises and the `except` branch answers with the save error: the
   * fallback to `create_instructions` after it is never reached.
   */
  function UpdateInstructions(rows: seq<Instruction>, form: InstructionForm, now: string): Result<seq<Instruction>>
  {
    match FetchOne(rows, ForElement(form.elementDbId))
    case None => Failure(SaveError)
    case Some(k) =>
      Success(rows[k := rows[k].(hazardSymbols := Pair(form.hazardSymbols, form.hazardTexts),
                                 protectionMeasures := Pair(form.protectionSymbols, form.protectionTexts),
                                 firstAid := Pair(form.firstAidSymbols, form.firstAidTexts),
                                 emergencyProcedures := Pair(form.emergencySymbols, form.emergencyTexts),
                                 maintenanceDisposal := form.maintenanceDisposal,
                                 updatedAt := now)])
  }

  /** The instruction as the form describes it, apart from id and times. */
  predicate HoldsForm(r: Instruction, form: InstructionForm)
  {
    r.elementId == form.elementDbId
    && r.hazardSymbols == Pair(form.hazardSymbols, form.hazardTexts)
    && r.protectionMeasures == Pair(form.protectionSymbols, form.protectionTexts)
    && r.firstAid == Pair(form.firstAidSymbols, form.firstAidTexts)
    && r.emergencyProcedures == Pair(form.emergencySymbols, form.emergencyTexts)
    && r.maintenanceDisposal == form.maintenanceDisposal
  }

  /**
   * Creating appends one row that holds the form. Updating fails with the
   * save error, changing nothing, exactly when the element has no
   * instruction or more than one; otherwise that one instruction takes the
   * form's contents and keeps its id and creation time, and no other row
   * changes.
   */
  lemma UpdateInstructionsEffect(rows: seq<Instruction>, form: InstructionForm, newId: int, now: string)
    ensures var c := CreateInstructions(rows, form, newId, now);
            |c| == |rows| + 1 && c[..|rows|] == rows && HoldsForm(c[|rows|], form)
            && c[|rows|].id == newId && c[|rows|].createdAt == now == c[|rows|].updatedAt
    ensures (forall i :: 0 <= i < |rows| ==> rows[i].elementId != form.elementDbId) ==>
              UpdateInstructions(rows, form, now) == Failure(SaveError)
    ensures (exists i, j :: 0 <= i < j < |rows| && rows[i].elementId == form.elementDbId
                                                && rows[j].elementId == form.elementDbId) ==>
              UpdateInstructions(rows, form, now) == Failure(SaveError)
    ensures forall k :: 0 <= k < |rows| && OnlyMatch(rows, ForElement(form.elementDbId), k) ==>
              var u := UpdateInstructions(rows, form, now);
              u.Success? && |u.value| == |rows| && HoldsForm(u.value[k], form) && u.value[k].id == rows[k].id
              && u.value[k].createdAt == rows[k].createdAt && u.value[k].updatedAt == now
              && forall j :: 0 <= j < |rows| && j != k ==> u.value[j] == rows[j]
    ensures UpdateInstructions(rows, form, now).Failure? ==> UpdateInstructions(rows, form, now) == Failure(SaveError)
  {
    var c := CreateInstructions(rows, form, newId, now);
    assert c[..|rows|] == rows;
    var p := ForElement(form.elementDbId);
    FetchOneCases(rows, p);
    assert forall i :: 0 <= i < |rows| ==> (p(rows[i]) <==> rows[i].elementId == form.elementDbId);
  }
}
