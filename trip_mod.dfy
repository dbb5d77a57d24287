/** Trip modifications: per-train detour rules that pick the shape a train
    follows, and the manager that records modifications with optional
    expiry (src/shared/TripModSimple.ts). */
module TripMod {
  import opened Wrappers

  datatype TriggerType = Station | Segment

  /** A rule's trigger: a station name or a segment index. */
  datatype TriggerValue = Text(text: string) | Number(number: int)

  datatype Direction = Forward | Backward | Both

  datatype TripModRule = TripModRule(triggerType: TriggerType, value: TriggerValue, shape: string, direction: Direction)

  /** The part of a train's state the rules look at. */
  datatype TrainState = TrainState(currentStation: Option<string>, lastSeg: int, isReturning: bool)

  datatype ModificationType = Detour | Skip | Delay

  datatype TripModification = TripModification(
    tripId: string,
    trainName: string,
    modificationType: ModificationType,
    triggerType: TriggerType,
    triggerValue: TriggerValue,
    shapeKey: string,
    direction: Direction,
    expiryTime: Option<real>)

  datatype TripStatus = Normal | Modified | Delayed | Cancelled

  /** Whether the rule's direction admits the train's travel direction. */
  predicate DirectionAllows(d: Direction, isReturning: bool) {
    d == Both || (d == Forward && !isReturning) || (d == Backward && isReturning)
  }

  /** Whether the rule's trigger fires, when its direction admits the train.
      A station rule compares its value with the current station by strict
      equality, so a number never matches and a missing station matches
      nothing. A segment rule fires once `lastSeg` has reached its index. */
  predicate Fires(rule: TripModRule, state: TrainState) {
    match rule.triggerType
    case Station => rule.value.Text? && state.currentStation == Some(rule.value.text)
    case Segment => rule.value.Number? && state.lastSeg >= rule.value.number
  }

  /** A segment rule whose value is text makes Luau's `>=` raise once the
      rule's direction admits the train. */
  predicate Raises(rule: TripModRule, state: TrainState) {
    DirectionAllows(rule.direction, state.isReturning) && rule.triggerType == Segment && rule.value.Text?
  }

  /** The shape the first rules leave active, starting from `Main`: the
      last applicable rule wins. `None` when one of them raises. */
  function ActiveShape(rules: seq<TripModRule>, state: TrainState): Option<string>
  {
    if rules == [] then Some("Main")
    else
      var prev := ActiveShape(rules[..|rules| - 1], state);
      var rule := rules[|rules| - 1];
      if prev.None? || Raises(rule, state) then None
      else if DirectionAllows(rule.direction, state.isReturning) && Fires(rule, state) then Some(rule.shape)
      else prev
  }

  /** `getShapeFor`'s answer, characterised: "Main" when no rule applies,
      otherwise the shape of the last applicable rule. */
  lemma {:induction false} ActiveShapeIsLastApplicable(rules: seq<TripModRule>, state: TrainState)
    requires forall i :: 0 <= i < |rules| ==> !Raises(rules[i], state)
    ensures ActiveShape(rules, state).Some?
    ensures (forall i :: 0 <= i < |rules| ==> !(DirectionAllows(rules[i].direction, state.isReturning) && Fires(rules[i], state)))
      ==> ActiveShape(rules, state) == Some("Main")
    ensures forall i :: 0 <= i < |rules| ==>
      ((DirectionAllows(rules[i].direction, state.isReturning) && Fires(rules[i], state) &&
        (forall j :: i < j < |rules| ==> !(DirectionAllows(rules[j].direction, state.isReturning) && Fires(rules[j], state))))
       ==> ActiveShape(rules, state) == Some(rules[i].shape))
  {
    if rules != [] {
      var init := rules[..|rules| - 1];
      ActiveShapeIsLastApplicable(init, state);
      assert forall i :: 0 <= i < |init| ==> init[i] == rules[i];
    }
  }

  /** The rule that mirrors a modification. */
  function RuleOf(m: TripModification): (r: TripModRule)
    ensures r.triggerType == m.triggerType && r.value == m.triggerValue
    ensures r.shape == m.shapeKey && r.direction == m.direction
  {
    TripModRule(m.triggerType, m.triggerValue, m.shapeKey, m.direction)
  }

  function RulesOf(mods: seq<TripModification>): (rs: seq<TripModRule>)
    ensures |rs| == |mods|
    ensures forall i :: 0 <= i < |mods| ==> rs[i] == RuleOf(mods[i])
  {
    if mods == [] then [] else RulesOf(mods[..|mods| - 1]) + [RuleOf(mods[|mods| - 1])]
  }

  /** Whether a modification survives cleanup at clock `now` (seconds):
      no expiry, or an expiry (milliseconds) still ahead. */
  predicate Unexpired(m: TripModification, now: real) {
    m.expiryTime.None? || m.expiryTime.value > now * 1000.0
  }

  function Unexpireds(mods: seq<TripModification>, now: real): (r: seq<TripModification>)
    ensures |r| <= |mods|
    ensures forall m :: m in r <==> m in mods && Unexpired(m, now)
  {
    if mods == [] then []
    else
      var rest := Unexpireds(mods[..|mods| - 1], now);
      var m := mods[|mods| - 1];
      assert forall x :: x in mods <==> x in mods[..|mods| - 1] || x == m;
      if Unexpired(m, now) then rest + [m] else rest
  }

  /** A filter that drops nothing returns its input. */
  lemma {:induction false} UnexpiredsSameSize(mods: seq<TripModification>, now: real)
    ensures |Unexpireds(mods, now)| == |mods| ==> Unexpireds(mods, now) == mods
  {
    if mods != [] {
      var init := mods[..|mods| - 1];
      if Unexpired(mods[|mods| - 1], now) {
        UnexpiredsSameSize(init, now);
        assert init + [mods[|mods| - 1]] == mods;
      }
    }
  }

  /** Once a prefix of the rules raises, the whole scan raises. */
  lemma {:induction false} ActiveShapeRaiseSticks(rules: seq<TripModRule>, k: int, state: TrainState)
    requires 0 <= k <= |rules|
    requires ActiveShape(rules[..k], state).None?
    ensures ActiveShape(rules, state).None?
    decreases |rules|
  {
    if k < |rules| {
      var init := rules[..|rules| - 1];
      assert init[..k] == rules[..k];
      ActiveShapeRaiseSticks(init, k, state);
    } else {
      assert rules[..k] == rules;
    }
  }

  /** A train's rules in a rule table, or none. */
  function RulesIn(rules: map<string, seq<TripModRule>>, trainName: string): seq<TripModRule> {
    if trainName in rules then rules[trainName] else []
  }

  /** A train's modifications in a table, or none. */
  function ModsIn(mods: map<string, seq<TripModification>>, trainName: string): seq<TripModification> {
    if trainName in mods then mods[trainName] else []
  }

  /** Each modification is filed under its own train. */
  ghost predicate Filed(mods: map<string, seq<TripModification>>) {
    forall t :: t in mods ==> forall m :: m in mods[t] ==> m.trainName == t
  }

  /** Each train's rules are exactly the rules of its modifications. */
  ghost predicate Mirrored(rules: map<string, seq<TripModRule>>, mods: map<string, seq<TripModification>>) {
    forall t :: RulesIn(rules, t) == RulesOf(ModsIn(mods, t))
  }

  /** Appending a modification and its rule for the same train keeps the
      tables filed and mirrored. */
  lemma AppendKeepsMirror(rules: map<string, seq<TripModRule>>, mods: map<string, seq<TripModification>>, m: TripModification)
    requires Filed(mods) && Mirrored(rules, mods)
    ensures Filed(mods[m.trainName := ModsIn(mods, m.trainName) + [m]])
    ensures Mirrored(rules[m.trainName := RulesIn(rules, m.trainName) + [RuleOf(m)]],
                     mods[m.trainName := ModsIn(mods, m.trainName) + [m]])
  {
    var ms := ModsIn(mods, m.trainName);
    assert RulesOf(ms + [m]) == RulesOf(ms) + [RuleOf(m)];
    var mods1 := mods[m.trainName := ms + [m]];
    forall u
      ensures RulesIn(rules[m.trainName := RulesIn(rules, m.trainName) + [RuleOf(m)]], u) == RulesOf(ModsIn(mods1, u))
    {
      if u != m.trainName {
        assert ModsIn(mods1, u) == ModsIn(mods, u);
      }
    }
  }

  /** Replacing one train's modifications by a list filed under it, with
      the rule table changed for that train only and to the list's rules,
      keeps the tables filed and mirrored. */
  lemma ReplaceKeepsMirror(rules0: map<string, seq<TripModRule>>, rules1: map<string, seq<TripModRule>>,
                           mods: map<string, seq<TripModification>>, t: string, newMods: seq<TripModification>)
    requires Filed(mods) && Mirrored(rules0, mods)
    requires forall m :: m in newMods ==> m.trainName == t
    requires RulesIn(rules1, t) == RulesOf(newMods)
    requires forall u :: u != t ==> RulesIn(rules1, u) == RulesIn(rules0, u)
    ensures Filed(mods[t := newMods]) && Mirrored(rules1, mods[t := newMods])
  {
    forall u
      ensures RulesIn(rules1, u) == RulesOf(ModsIn(mods[t := newMods], u))
    {
      if u != t {
        assert ModsIn(mods[t := newMods], u) == ModsIn(mods, u);
      }
    }
  }

  /** `TripModSimple`: the per-train rule lists. */
  class TripModSimple {
    var rules: map<string, seq<TripModRule>>

    constructor()
      ensures rules == map[]
    {
      rules := map[];
    }

    /** The train's rules, or none. */
    function RulesFor(trainName: string): seq<TripModRule>
      reads this
    {
      RulesIn(rules, trainName)
    }

    /** `addRule`: appends to the train's list; other trains are untouched.
        The source's default direction is `Both`. */
    method AddRule(trainName: string, triggerType: TriggerType, triggerValue: TriggerValue, shapeKey: string, direction: Direction)
      modifies this
      ensures rules == old(rules)[trainName := old(RulesFor(trainName)) + [TripModRule(triggerType, triggerValue, shapeKey, direction)]]
    {
      if trainName !in rules {
        rules := rules[trainName := []];
      }
      var trainRules := rules[trainName];
      rules := rules[trainName := trainRules + [TripModRule(triggerType, triggerValue, shapeKey, direction)]];
    }

    /** `clearRules`: drops the train's rules only. */
    method ClearRules(trainName: string)
      modifies this
      ensures rules == old(rules) - {trainName}
    {
      rules := rules - {trainName};
    }

    /** `getShapeFor`: scans the train's rules in insertion order. */
    method GetShapeFor(trainName: string, state: TrainState) returns (active: Option<string>)
      ensures active == ActiveShape(RulesFor(trainName), state)
    {
      var trainRules := RulesFor(trainName);
      var shape := "Main";
      var i := 0;
      while i < |trainRules|
        invariant 0 <= i <= |trainRules|
        invariant ActiveShape(trainRules[..i], state) == Some(shape)
      {
        var rule := trainRules[i];
        assert trainRules[..i + 1][..i] == trainRules[..i];
        var okDir := rule.direction == Both || (rule.direction == Forward && !state.isReturning) ||
          (rule.direction == Backward && state.isReturning);
        if okDir {
          if rule.triggerType == Station && rule.value.Text? && state.currentStation == Some(rule.value.text) {
            shape := rule.shape;
          } else if rule.triggerType == Segment {
            if rule.value.Text? {
              assert ActiveShape(trainRules[..i + 1], state).None?;
              ActiveShapeRaiseSticks(trainRules, i + 1, state);
              return None;
            }
            if state.lastSeg >= rule.value.number {
              shape := rule.shape;
            }
          }
        }
        i := i + 1;
      }
      assert trainRules[..i] == trainRules;
      return Some(shape);
    }
  }

  /** `TripModificationManager`: the modifications per train, mirrored as
      rules in its own `TripModSimple`. */
  class TripModificationManager {
    var modifications: map<string, seq<TripModification>>
    /** Insertion order of `modifications`' keys (the order `forEach`
        visits them). */
    var order: seq<string>
    const tripModSimple: TripModSimple

    function ModsFor(trainName: string): seq<TripModification>
      reads this
    {
      ModsIn(modifications, trainName)
    }

    /** Each train's rules are exactly the rules of its modifications, in
        order, and each modification is filed under its own train. */
    ghost predicate Valid()
      reads this, tripModSimple
    {
      (forall i, j :: 0 <= i < j < |order| ==> order[i] != order[j]) &&
      (forall t :: t in modifications <==> t in order) &&
      Filed(modifications) && Mirrored(tripModSimple.rules, modifications)
    }

    constructor()
      ensures Valid() && fresh(tripModSimple)
      ensures modifications == map[]
    {
      modifications := map[];
      order := [];
      tripModSimple := new TripModSimple();
    }

    /** `addModification`: appends to the train's list and adds the mirror
        rule. */
    method AddModification(modification: TripModification)
      requires Valid()
      modifies this, tripModSimple
      ensures Valid()
      ensures modifications == old(modifications)[modification.trainName := old(ModsFor(modification.trainName)) + [modification]]
    {
      AppendKeepsMirror(tripModSimple.rules, modifications, modification);
      var trainName := modification.trainName;
      if trainName !in modifications {
        modifications := modifications[trainName := []];
        order := order + [trainName];
      }
      var trainMods := modifications[trainName];
      modifications := modifications[trainName := trainMods + [modification]];
      tripModSimple.AddRule(trainName, modification.triggerType, modification.triggerValue,
        modification.shapeKey, modification.direction);
    }

    /** `cleanupExpiredModifications`: every train keeps only its unexpired
        modifications, visited in insertion order. */
    method CleanupExpiredModifications(now: real)
      requires Valid()
      modifies this, tripModSimple
      ensures Valid()
      ensures order == old(order)
      ensures modifications.Keys == old(modifications).Keys
      ensures forall t :: t in modifications ==> modifications[t] == Unexpireds(old(modifications)[t], now)
    {
      ghost var before := modifications;
      var keys := order;
      assert forall k :: 0 <= k < |keys| ==> keys[k] in before;
      var i := 0;
      while i < |keys|
        invariant 0 <= i <= |keys|
        invariant Valid()
        invariant order == keys
        invariant modifications.Keys == before.Keys
        invariant forall k :: 0 <= k < i ==> modifications[keys[k]] == Unexpireds(before[keys[k]], now)
        invariant forall k :: i <= k < |keys| ==> modifications[keys[k]] == before[keys[k]]
      {
        var trainName := keys[i];
        CleanupTrain(trainName, now);
        assert forall k :: 0 <= k < |keys| && k != i ==> keys[k] != trainName;
        i := i + 1;
      }
      assert forall t :: t in modifications ==> exists k :: 0 <= k < |keys| && keys[k] == t;
    }

    /** One train's turn in `cleanupExpiredModifications`: when the filter
        dropped something, the list is replaced by the survivors and the
        train's rules are rebuilt from them; otherwise nothing changes. */
    method CleanupTrain(trainName: string, now: real)
      requires Valid() && trainName in modifications
      modifies this, tripModSimple
      ensures Valid()
      ensures order == old(order)
      ensures modifications == old(modifications)[trainName := Unexpireds(old(modifications)[trainName], now)]
    {
      var mods := modifications[trainName];
      var validMods := Unexpireds(mods, now);
      if |validMods| != |mods| {
        ghost var rules0 := tripModSimple.rules;
        ghost var mods0 := modifications;
        RebuildRules(trainName, validMods);
        ReplaceKeepsMirror(rules0, tripModSimple.rules, mods0, trainName, validMods);
        modifications := modifications[trainName := validMods];
      } else {
        UnexpiredsSameSize(mods, now);
        assert modifications == modifications[trainName := mods];
      }
    }

    /** The rebuild step of `cleanupExpiredModifications`: the train's rules
        are cleared and re-added from `mods`, one `addRule` per modification;
        other trains keep their rules. */
    method RebuildRules(trainName: string, mods: seq<TripModification>)
      requires forall m :: m in mods ==> m.trainName == trainName
      modifies tripModSimple
      ensures RulesIn(tripModSimple.rules, trainName) == RulesOf(mods)
      ensures forall t :: t != trainName ==> RulesIn(tripModSimple.rules, t) == RulesIn(old(tripModSimple.rules), t)
    {
      tripModSimple.ClearRules(trainName);
      var j := 0;
      while j < |mods|
        invariant 0 <= j <= |mods|
        invariant tripModSimple.rules == old(tripModSimple.rules)[trainName := RulesOf(mods[..j])] ||
          (j == 0 && tripModSimple.rules == old(tripModSimple.rules) - {trainName})
      {
        var m := mods[j];
        tripModSimple.AddRule(m.trainName, m.triggerType, m.triggerValue, m.shapeKey, m.direction);
        assert mods[..j + 1] == mods[..j] + [m];
        assert RulesOf(mods[..j + 1]) == RulesOf(mods[..j]) + [RuleOf(m)];
        j := j + 1;
      }
      assert mods[..j] == mods;
    }

    /** `getActiveModifications`: the train's list, or none. */
    function GetActiveModifications(trainName: string): (r: seq<TripModification>)
      reads this
      ensures trainName in modifications ==> r == modifications[trainName]
      ensures trainName !in modifications ==> r == []
    {
      ModsFor(trainName)
    }

    /** `getTripStatus`: Modified iff the train has a modification. */
    function GetTripStatus(trainName: string): (s: TripStatus)
      reads this
      ensures s == Modified <==> |GetActiveModifications(trainName)| > 0
      ensures s == Normal <==> |GetActiveModifications(trainName)| == 0
    {
      if |GetActiveModifications(trainName)| > 0 then Modified else Normal
    }
  }
}
