/**
  The bookkeeping behind the synthesis front end: the reagent and recipe
  tables, the style the activity log gives a message, the manual batch (pump to
  accumulated millilitres, in the order the pumps were first added) with its
  pending-items label, and the dispense protocols that turn a batch or a
  recipe into log lines. The widgets themselves are not modelled; a slider
  reading is a parameter, the log is the sequence of (message, style) pairs
  written to it.
 */
module LabInterface {

  /** Pump (tube) to the chemical it holds. */
  const Reagents: map<string, string> := map[
    "Tube 1" := "Copper Sulfate (CuSO4)",
    "Tube 2" := "Sodium Hydroxide (NaOH)",
    "Tube 3" := "Sodium Carbonate (Na2CO3)",
    "Tube 4" := "Hydrochloric Acid (HCl)",
    "Tube 5" := "Ammonia (NH3)"
  ]

  /** A recipe: its formula and its mix, pump and millilitres in dispense order. */
  datatype Recipe = Recipe(formula: string, mix: seq<(string, nat)>)

  const Recipes: map<string, Recipe> := map[
    "Copper Hydroxide - Cu(OH)2" := Recipe("CuSO4 + 2NaOH -> Cu(OH)2", [("Tube 1", 20), ("Tube 2", 20)]),
    "Copper Carbonate - CuCO3" := Recipe("CuSO4 + Na2CO3 -> CuCO3", [("Tube 1", 20), ("Tube 3", 20)]),
    "Carbon Dioxide - CO2" := Recipe("2HCl + Na2CO3 -> CO2 + ...", [("Tube 4", 25), ("Tube 3", 25)]),
    "Ammonium Chloride - NH4Cl" := Recipe("HCl + NH3 -> NH4Cl", [("Tube 4", 10), ("Tube 5", 10)]),
    "Royal Blue Complex - [Cu(NH3)4]2+" := Recipe("CuSO4 + 4NH3 -> [Cu(NH3)4]2+", [("Tube 1", 15), ("Tube 5", 30)]),
    "Neutralization" := Recipe("HCl + NaOH -> NaCl + H2O", [("Tube 4", 25), ("Tube 2", 25)])
  ]

  /** The text tags of the activity log that a message can get (the timestamp's
      own tag is not modelled). */
  datatype Style = BlueBold | Normal | Success

  datatype LogEntry = LogEntry(message: string, style: Style)

  /** `w` occurs in `s` starting at index `i`. */
  predicate OccursAt(s: string, w: string, i: int)
  {
    0 <= i <= |s| - |w| && s[i..i + |w|] == w
  }

  /** Python's `w in s` on strings: `w` occurs in `s` as a contiguous piece. */
  predicate Contains(s: string, w: string)
  {
    exists i | 0 <= i <= |s| - |w| :: OccursAt(s, w, i)
  }

  predicate Highlighted(message: string)
  {
    Contains(message, "ENGAGED") || Contains(message, "ACTIVATED") || Contains(message, "Added")
  }

  predicate Completion(message: string)
  {
    Contains(message, "Completed") || Contains(message, "SUCCESS")
  }

  /** The style `log` writes `message` with, when the caller asked for `style`:
      a highlight keyword wins, then a completion keyword, else the caller's choice. */
  function StyleFor(message: string, style: Style): (r: Style)
    ensures r == BlueBold || r == Success || r == style
  {
    if Highlighted(message) then BlueBold
    else if Completion(message) then Success
    else style
  }

  /** The log entry `log(message, style)` writes (the timestamp is not modelled). */
  function Logged(message: string, style: Style): LogEntry
  {
    LogEntry(message, StyleFor(message, style))
  }

  /** Python's `str(n)` for a natural number: its decimal digits. */
  function NatToString(n: nat): (s: string)
    ensures |s| > 0
    ensures forall k :: 0 <= k < |s| ==> '0' <= s[k] <= '9'
    decreases n
  {
    var digit := ('0' as int + n % 10) as char;
    if n < 10 then [digit] else NatToString(n / 10) + [digit]
  }

  /** The number a string of decimal digits denotes. */
  function DecimalValue(s: string): nat
    requires forall k :: 0 <= k < |s| ==> '0' <= s[k] <= '9'
  {
    if s == [] then 0
    else 10 * DecimalValue(s[..|s| - 1]) + (s[|s| - 1] as int - '0' as int)
  }

  const ReadyMessage: string := "System Ready. Extended Log Area Loaded."
  // The protocol messages are written in pieces (the completion messages around
  // their keyword), so that facts about their characters follow piece by piece.
  const ManualStart: string := "Starting " + "Manual Dispense " + "Protocol..."
  const ManualDone: string := "Manual Protocol " + "Completed" + " Successfully."
  const AutoDone: string := "Sequence " + "Completed" + " Successfully."

  function AutoStart(recipeName: string): string
  {
    "Auto-Sequence Started: " + recipeName
  }

  function AddedMessage(amount: nat, name: string): string
  {
    "Manual " + "Added" + (": " + NatToString(amount) + "ml of " + name)
  }

  function DispenseMessage(pump: string, amount: nat, chemical: string): string
  {
    ("PUMP " + pump + " ") + "ENGAGED" + (" -> " + NatToString(amount) + "ml (" + chemical + ")")
  }

  /** The log line for dispensing `amount` millilitres from `pump`. */
  function DispenseLine(pump: string, amount: nat): LogEntry
    requires pump in Reagents
  {
    Logged(DispenseMessage(pump, amount, Reagents[pump]), Normal)
  }

  /** The log lines of a dispense loop over `entries`, in order. */
  function DispenseLines(entries: seq<(string, nat)>): seq<LogEntry>
    requires forall k :: 0 <= k < |entries| ==> entries[k].0 in Reagents
  {
    if entries == [] then []
    else DispenseLines(entries[..|entries| - 1]) + [DispenseLine(entries[|entries| - 1].0, entries[|entries| - 1].1)]
  }

  /** The items of the manual batch, in insertion order. */
  function BatchEntries(order: seq<string>, amounts: map<string, nat>): seq<(string, nat)>
    requires forall k :: 0 <= k < |order| ==> order[k] in amounts
  {
    seq(|order|, k requires 0 <= k < |order| => (order[k], amounts[order[k]]))
  }

  /** A dispense protocol's log: its start line, one line per entry, its end line. */
  function ProtocolLog(start: string, entries: seq<(string, nat)>, done: string): seq<LogEntry>
    requires forall k :: 0 <= k < |entries| ==> entries[k].0 in Reagents
  {
    [Logged(start, Normal)] + DispenseLines(entries) + [Logged(done, Normal)]
  }

  /** Everything `execute_batch` writes to the log for a non-empty batch. */
  function ManualProtocolLog(order: seq<string>, amounts: map<string, nat>): seq<LogEntry>
    requires forall k :: 0 <= k < |order| ==> order[k] in amounts && order[k] in Reagents
  {
    ProtocolLog(ManualStart, BatchEntries(order, amounts), ManualDone)
  }

  /** Everything `run_recipe` writes to the log for the recipe `recipeName` with `mix`. */
  function RecipeLog(recipeName: string, mix: seq<(string, nat)>): seq<LogEntry>
    requires forall k :: 0 <= k < |mix| ==> mix[k].0 in Reagents
  {
    ProtocolLog(AutoStart(recipeName), mix, AutoDone)
  }

  /** `add_to_batch`'s update of the batch: a zero amount changes nothing, a pump
      already present gets the amount added to its total, a new pump gets exactly
      the amount; no other pump's entry changes. */
  function Accumulate(batch: map<string, nat>, pump: string, amount: nat): (r: map<string, nat>)
    ensures amount == 0 ==> r == batch
    ensures amount > 0 ==> pump in r && r[pump] == amount + (if pump in batch then batch[pump] else 0)
    ensures forall p :: p != pump ==> (p in r <==> p in batch) && (p in r ==> r[p] == batch[p])
    ensures r.Keys == if amount > 0 then batch.Keys + {pump} else batch.Keys
    ensures |r| == if amount > 0 && pump !in batch then |batch| + 1 else |batch|
  {
    if amount == 0 then batch
    else if pump in batch then batch[pump := batch[pump] + amount]
    else batch[pump := amount]
  }

  predicate Distinct(s: seq<string>)
  {
    forall i, j :: 0 <= i < j < |s| ==> s[i] != s[j]
  }

  /** What the manual batch always satisfies: its pumps are among the `known` ones
      (the reagent table's), each listed once in `order`, each with a positive total. */
  ghost predicate BatchInvariant(batch: map<string, nat>, order: seq<string>, known: set<string>)
  {
    && Distinct(order)
    && (forall p :: p in batch <==> p in order)
    && batch.Keys <= known
    && (forall p :: p in batch ==> batch[p] > 0)
  }

  // ---------------------------------------------------------------------------
  // Properties

  /** Every pump a recipe uses is a known reagent, with a positive amount; so
      `run_recipe`'s reagent lookups never fail. */
  lemma RecipeTablesConsistent()
    ensures forall name | name in Recipes ::
      forall k | 0 <= k < |Recipes[name].mix| :: Recipes[name].mix[k].0 in Reagents && Recipes[name].mix[k].1 > 0
  {
  }

  /** No recipe uses a pump twice. */
  lemma RecipePumpsDistinct()
    ensures forall name | name in Recipes ::
      forall i, j | 0 <= i < j < |Recipes[name].mix| :: Recipes[name].mix[i].0 != Recipes[name].mix[j].0
  {
  }

  /** A piece placed in the middle of a message is contained in it. */
  lemma ContainsInfix(prefix: string, w: string, suffix: string)
    ensures Contains(prefix + w + suffix, w)
  {
    var s := prefix + w + suffix;
    assert OccursAt(s, w, |prefix|);
  }

  /** A message lacking some character of `w` does not contain `w`. */
  lemma MissingCharNotContained(s: string, w: string, c: char)
    requires c in w && c !in s
    ensures !Contains(s, w)
  {
    var j :| 0 <= j < |w| && w[j] == c;
    forall i | 0 <= i <= |s| - |w| ensures !OccursAt(s, w, i) {
      assert s[i..i + |w|][j] == s[i + j] != c;
    }
  }

  /** A message with a highlight keyword gets `blue_bold`, whatever else it contains
      and whatever style the caller asked for. */
  lemma HighlightWins(prefix: string, keyword: string, suffix: string, style: Style)
    requires keyword == "ENGAGED" || keyword == "ACTIVATED" || keyword == "Added"
    ensures StyleFor(prefix + keyword + suffix, style) == BlueBold
  {
    ContainsInfix(prefix, keyword, suffix);
  }

  /** Without a highlight keyword, a completion keyword gives `success`. */
  lemma CompletionStyle(prefix: string, keyword: string, suffix: string, style: Style)
    requires keyword == "Completed" || keyword == "SUCCESS"
    requires !Highlighted(prefix + keyword + suffix)
    ensures StyleFor(prefix + keyword + suffix, style) == Success
  {
    ContainsInfix(prefix, keyword, suffix);
  }

  /** With neither kind of keyword, the caller's style is kept. */
  lemma PlainStyleKept(message: string, style: Style)
    requires !Highlighted(message) && !Completion(message)
    ensures StyleFor(message, style) == style
  {
  }

  lemma DispenseLineHighlighted(pump: string, amount: nat)
    requires pump in Reagents
    ensures DispenseLine(pump, amount) == LogEntry(DispenseMessage(pump, amount, Reagents[pump]), BlueBold)
  {
    HighlightWins("PUMP " + pump + " ", "ENGAGED", " -> " + NatToString(amount) + "ml (" + Reagents[pump] + ")", Normal);
  }

  lemma AddedMessageHighlighted(amount: nat, name: string, style: Style)
    ensures StyleFor(AddedMessage(amount, name), style) == BlueBold
  {
    HighlightWins("Manual ", "Added", ": " + NatToString(amount) + "ml of " + name, style);
  }

  /** A dispense loop writes one line per entry, in order, each with its pump and
      amount, each highlighted. */
  lemma {:induction false} DispenseLinesSpec(entries: seq<(string, nat)>)
    requires forall k :: 0 <= k < |entries| ==> entries[k].0 in Reagents
    ensures |DispenseLines(entries)| == |entries|
    ensures forall k :: 0 <= k < |entries| ==>
      DispenseLines(entries)[k] == LogEntry(DispenseMessage(entries[k].0, entries[k].1, Reagents[entries[k].0]), BlueBold)
  {
    if entries != [] {
      var init := entries[..|entries| - 1];
      DispenseLinesSpec(init);
      var last := entries[|entries| - 1];
      DispenseLineHighlighted(last.0, last.1);
      var lines := DispenseLines(entries);
      assert lines == DispenseLines(init) + [DispenseLine(last.0, last.1)];
      forall k | 0 <= k < |entries|
        ensures lines[k] == LogEntry(DispenseMessage(entries[k].0, entries[k].1, Reagents[entries[k].0]), BlueBold)
      {
        if k < |init| {
          assert init[k] == entries[k];
          assert lines[k] == DispenseLines(init)[k];
        }
      }
    }
  }

  /** 'A' occurs in every highlight keyword, so a message without it is not highlighted. */
  lemma NotHighlightedWithoutA(message: string)
    requires 'A' !in message
    ensures !Highlighted(message)
  {
    MissingCharNotContained(message, "ENGAGED", 'A');
    MissingCharNotContained(message, "ACTIVATED", 'A');
    MissingCharNotContained(message, "Added", 'A');
  }

  /** 'C' occurs in both completion keywords. */
  lemma NoCompletionWithoutC(message: string)
    requires 'C' !in message
    ensures !Completion(message)
  {
    MissingCharNotContained(message, "Completed", 'C');
    MissingCharNotContained(message, "SUCCESS", 'C');
  }

  lemma ManualStartStyle()
    ensures StyleFor(ManualStart, Normal) == Normal
  {
    assert 'A' !in ManualStart && 'C' !in ManualStart;
    NotHighlightedWithoutA(ManualStart);
    NoCompletionWithoutC(ManualStart);
  }

  lemma ManualDoneStyle()
    ensures StyleFor(ManualDone, Normal) == Success
  {
    assert 'A' !in ManualDone;
    NotHighlightedWithoutA(ManualDone);
    ContainsInfix("Manual Protocol ", "Completed", " Successfully.");
  }

  lemma AutoDoneStyle()
    ensures StyleFor(AutoDone, Normal) == Success
  {
    assert 'A' !in AutoDone;
    NotHighlightedWithoutA(AutoDone);
    ContainsInfix("Sequence ", "Completed", " Successfully.");
  }

  /** The shape of a protocol's log: the start line, one highlighted dispense line
      per entry in order, and the end line. */
  lemma ProtocolLogShape(start: string, entries: seq<(string, nat)>, done: string)
    requires forall k :: 0 <= k < |entries| ==> entries[k].0 in Reagents
    ensures var log := ProtocolLog(start, entries, done);
      && |log| == |entries| + 2
      && log[0] == Logged(start, Normal)
      && log[|entries| + 1] == Logged(done, Normal)
      && forall k :: 0 <= k < |entries| ==>
           log[k + 1] == LogEntry(DispenseMessage(entries[k].0, entries[k].1, Reagents[entries[k].0]), BlueBold)
  {
    DispenseLinesSpec(entries);
    var lines := DispenseLines(entries);
    var log := [Logged(start, Normal)] + lines + [Logged(done, Normal)];
    assert log == ProtocolLog(start, entries, done);
    forall k | 0 <= k < |entries|
      ensures log[k + 1] == LogEntry(DispenseMessage(entries[k].0, entries[k].1, Reagents[entries[k].0]), BlueBold)
    {
      assert log[k + 1] == lines[k];
    }
  }

  /** The manual protocol: a plain start line, then one highlighted line per pump in
      insertion order with its accumulated amount and chemical, then a success line. */
  lemma ManualProtocolShape(order: seq<string>, amounts: map<string, nat>)
    requires forall k :: 0 <= k < |order| ==> order[k] in amounts && order[k] in Reagents
    ensures var log := ManualProtocolLog(order, amounts);
      && |log| == |order| + 2
      && log[0] == LogEntry(ManualStart, Normal)
      && log[|order| + 1] == LogEntry(ManualDone, Success)
      && forall k :: 0 <= k < |order| ==>
           log[k + 1] == LogEntry(DispenseMessage(order[k], amounts[order[k]], Reagents[order[k]]), BlueBold)
  {
    var e := BatchEntries(order, amounts);
    assert forall k :: 0 <= k < |order| ==> e[k] == (order[k], amounts[order[k]]);
    ProtocolLogShape(ManualStart, e, ManualDone);
    ManualStartStyle();
    ManualDoneStyle();
  }

  /** A recipe run: one highlighted line per pump of the mix, in the recipe's order,
      between the start line and a success line. */
  lemma RecipeLogShape(recipeName: string, mix: seq<(string, nat)>)
    requires forall k :: 0 <= k < |mix| ==> mix[k].0 in Reagents
    ensures var log := RecipeLog(recipeName, mix);
      && |log| == |mix| + 2
      && log[0] == Logged(AutoStart(recipeName), Normal)
      && log[|mix| + 1] == LogEntry(AutoDone, Success)
      && forall k :: 0 <= k < |mix| ==>
           log[k + 1] == LogEntry(DispenseMessage(mix[k].0, mix[k].1, Reagents[mix[k].0]), BlueBold)
  {
    ProtocolLogShape(AutoStart(recipeName), mix, AutoDone);
    AutoDoneStyle();
  }

  /** Adding a positive amount for a known pump keeps the batch invariant, the pump
      joining the end of the order when it is new. */
  lemma AccumulateKeepsInvariant(batch: map<string, nat>, order: seq<string>, known: set<string>,
                                  pump: string, amount: nat)
    requires BatchInvariant(batch, order, known)
    requires pump in known && amount > 0
    ensures BatchInvariant(Accumulate(batch, pump, amount), if pump in batch then order else order + [pump], known)
  {
    var r := Accumulate(batch, pump, amount);
    var order' := if pump in batch then order else order + [pump];
    if pump !in batch {
      DistinctAppend(order, pump);
    }
    forall p ensures p in r <==> p in order' {
      assert p in order' <==> p in order || p == pump;
    }
    forall p | p in r ensures r[p] > 0 {
      if p != pump {
        assert r[p] == batch[p];
      }
    }
    assert r.Keys <= known;
  }

  lemma DistinctAppend(s: seq<string>, x: string)
    requires Distinct(s) && x !in s
    ensures Distinct(s + [x])
  {
    var s' := s + [x];
    forall i, j | 0 <= i < j < |s'| ensures s'[i] != s'[j] {
      if j == |s| {
        assert s'[i] == s[i];
      }
    }
  }

  lemma AppendAround<T>(before: seq<T>, first: T, middle: seq<T>, last: T)
    ensures before + [first] + middle + [last] == before + ([first] + middle + [last])
  {
  }

  /** A repetition-free list of pumps has as many elements as the set of its pumps. */
  lemma {:induction false} DistinctCount(order: seq<string>, pumps: set<string>)
    requires Distinct(order)
    requires forall p :: p in pumps <==> p in order
    ensures |pumps| == |order|
  {
    if order != [] {
      var last := order[|order| - 1];
      var init := order[..|order| - 1];
      assert forall p :: p in init ==> p != last by {
        forall p | p in init ensures p != last {
          var i :| 0 <= i < |init| && init[i] == p;
        }
      }
      forall p ensures p in pumps - {last} <==> p in init {
        if p in order && p != last {
          var i :| 0 <= i < |order| && order[i] == p;
          assert init[i] == p;
        }
      }
      DistinctCount(init, pumps - {last});
    }
  }

  /** `str(n)` reads back as `n`, with no leading zero. */
  lemma {:induction false} NatToStringDecimal(n: nat)
    ensures DecimalValue(NatToString(n)) == n
    ensures |NatToString(n)| > 1 ==> NatToString(n)[0] != '0'
    decreases n
  {
    var s := NatToString(n);
    var digit := ('0' as int + n % 10) as char;
    if n >= 10 {
      NatToStringDecimal(n / 10);
      assert s[..|s| - 1] == NatToString(n / 10);
      assert s[0] == NatToString(n / 10)[0];
    }
  }

  /** The items `execute_batch` dispenses for a well-formed batch: one per pump
      of the batch, no pump twice, each with its accumulated total. */
  lemma BatchEntriesCoverBatch(order: seq<string>, amounts: map<string, nat>, known: set<string>)
    requires BatchInvariant(amounts, order, known)
    ensures var e := BatchEntries(order, amounts);
      && (forall p :: p in amounts <==> exists k :: 0 <= k < |e| && e[k].0 == p)
      && (forall i, j :: 0 <= i < j < |e| ==> e[i].0 != e[j].0)
      && (forall k :: 0 <= k < |e| ==> e[k].0 in amounts && e[k].1 == amounts[e[k].0])
  {
    var e := BatchEntries(order, amounts);
    forall p ensures p in amounts <==> exists k :: 0 <= k < |e| && e[k].0 == p {
      if p in amounts {
        var k :| 0 <= k < |order| && order[k] == p;
        assert e[k].0 == p;
      }
    }
  }

  // ---------------------------------------------------------------------------
  // The application

  class LabApp {
    /** `manual_batch`: pump to the millilitres added so far. */
    var manualBatch: map<string, nat>
    /** The batch's pumps in the order they were first added (the dict's order). */
    var batchOrder: seq<string>
    /** The count the batch label shows as pending. */
    var pendingShown: nat
    /** The activity log. */
    var log: seq<LogEntry>

    ghost predicate Valid()
      reads this
    {
      && BatchInvariant(manualBatch, batchOrder, Reagents.Keys)
      && pendingShown == |manualBatch|
    }

    constructor ()
      ensures Valid()
      ensures manualBatch == map[] && batchOrder == [] && pendingShown == 0
      ensures log == [Logged(ReadyMessage, Normal)]
    {
      manualBatch := map[];
      batchOrder := [];
      pendingShown := 0;
      log := [Logged(ReadyMessage, Normal)];
    }

    /** The label's count is the number of distinct pumps in the batch. */
    lemma PendingIsDistinctPumps()
      requires Valid()
      ensures pendingShown == |batchOrder| == |manualBatch.Keys|
    {
      assert forall p :: p in manualBatch.Keys <==> p in batchOrder;
      DistinctCount(batchOrder, manualBatch.Keys);
    }

    /** `log`: appends the message with the style the keywords choose. */
    method Log(message: string, style: Style)
      modifies this`log
      ensures log == old(log) + [Logged(message, style)]
    {
      var chosen := style;
      if Contains(message, "ENGAGED") || Contains(message, "ACTIVATED") || Contains(message, "Added") {
        chosen := BlueBold;
      } else if Contains(message, "Completed") || Contains(message, "SUCCESS") {
        chosen := Success;
      }
      log := log + [LogEntry(message, chosen)];
    }

    /** `add_to_batch`, with `amount` the value read from the pump's slider. The
        sliders are keyed by the reagent table, so an unknown pump raises and
        changes nothing; a zero amount is ignored; otherwise the amount is
        accumulated, logged, and the label updated. */
    method AddToBatch(pumpId: string, name: string, amount: nat)
      requires Valid()
      modifies this
      ensures Valid()
      ensures pumpId !in Reagents || amount == 0 ==>
        manualBatch == old(manualBatch) && batchOrder == old(batchOrder) && pendingShown == old(pendingShown)
        && log == old(log)
      ensures pumpId in Reagents && amount > 0 ==>
        && manualBatch == Accumulate(old(manualBatch), pumpId, amount)
        && batchOrder == (if pumpId in old(manualBatch) then old(batchOrder) else old(batchOrder) + [pumpId])
        && log == old(log) + [Logged(AddedMessage(amount, name), Normal)]
        && pendingShown == |manualBatch|
    {
      if pumpId !in Reagents {
        return;
      }
      if amount == 0 {
        return;
      }
      AddAmount(pumpId, amount);
      Log(AddedMessage(amount, name), Normal);
    }

    /** The batch update of `add_to_batch`, and the label showing the new count. */
    method AddAmount(pump: string, amount: nat)
      requires BatchInvariant(manualBatch, batchOrder, Reagents.Keys)
      requires pump in Reagents && amount > 0
      modifies this`manualBatch, this`batchOrder, this`pendingShown
      ensures BatchInvariant(manualBatch, batchOrder, Reagents.Keys)
      ensures manualBatch == Accumulate(old(manualBatch), pump, amount)
      ensures batchOrder == if pump in old(manualBatch) then old(batchOrder) else old(batchOrder) + [pump]
      ensures pendingShown == |manualBatch|
    {
      AccumulateKeepsInvariant(manualBatch, batchOrder, Reagents.Keys, pump, amount);
      if pump !in manualBatch {
        batchOrder := batchOrder + [pump];
      }
      manualBatch := Accumulate(manualBatch, pump, amount);
      pendingShown := |manualBatch|;
    }

    /** `execute_batch`: refuses an empty batch (the warning box); otherwise logs the
        manual protocol, one dispense line per pump, and empties the batch. */
    method ExecuteBatch() returns (refused: bool)
      requires Valid()
      modifies this
      ensures Valid()
      ensures refused <==> old(manualBatch) == map[]
      ensures refused ==>
        manualBatch == old(manualBatch) && batchOrder == old(batchOrder) && log == old(log)
        && pendingShown == old(pendingShown)
      ensures !refused ==>
        && log == old(log) + ManualProtocolLog(old(batchOrder), old(manualBatch))
        && manualBatch == map[] && batchOrder == [] && pendingShown == 0
    {
      if manualBatch == map[] {
        return true;
      }
      refused := false;
      LogProtocol(ManualStart, BatchEntries(batchOrder, manualBatch), ManualDone);
      manualBatch := map[];
      batchOrder := [];
      pendingShown := 0;
    }

    /** A protocol's log lines: the start message, the dispense loop, the end message. */
    method LogProtocol(start: string, entries: seq<(string, nat)>, done: string)
      requires forall k :: 0 <= k < |entries| ==> entries[k].0 in Reagents
      modifies this`log
      ensures log == old(log) + ProtocolLog(start, entries, done)
    {
      Log(start, Normal);
      LogDispenses(entries);
      Log(done, Normal);
      AppendAround(old(log), Logged(start, Normal), DispenseLines(entries), Logged(done, Normal));
    }

    /** The dispense loop of `execute_batch` and `run_recipe`: one log line per
        entry, naming the pump's chemical. */
    method LogDispenses(entries: seq<(string, nat)>)
      requires forall k :: 0 <= k < |entries| ==> entries[k].0 in Reagents
      modifies this`log
      ensures log == old(log) + DispenseLines(entries)
    {
      var i := 0;
      while i < |entries|
        invariant 0 <= i <= |entries|
        invariant log == old(log) + DispenseLines(entries[..i])
      {
        var (pump, amount) := entries[i];
        var name := Reagents[pump];
        assert entries[..i + 1][..i] == entries[..i];
        Log(DispenseMessage(pump, amount, name), Normal);
        i := i + 1;
      }
      assert entries[..i] == entries;
    }

    /** `run_recipe`: an unknown recipe raises before anything is logged; a known
        one logs its start, one dispense line per pump of its mix, and its end. */
    method RunRecipe(recipeName: string) returns (ok: bool)
      modifies this`log
      ensures ok <==> recipeName in Recipes
      ensures ok ==> (RecipeTablesConsistent(); log == old(log) + RecipeLog(recipeName, Recipes[recipeName].mix))
      ensures !ok ==> log == old(log)
    {
      if recipeName !in Recipes {
        return false;
      }
      ok := true;
      var target := Recipes[recipeName];
      RecipeTablesConsistent();
      LogProtocol(AutoStart(recipeName), target.mix, AutoDone);
    }
  }
}
