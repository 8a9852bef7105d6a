/**
  Reasoning controls of agent clients and their normal form (reasoning_controls.py).

  A payload is a record of the fields that matter; `rest` stands for all other keys of an object, "" for none.
 */
module ReasoningControls {
  import opened Options
  import opened Whitespace

  /** A JSON value under a key: missing, null, or of some type. */
  datatype Value = Missing | Null | Bool(b: bool) | Str(s: string) | Number(r: real, integer: bool) | OtherValue(printed: string)

  datatype Reasoning = NoReasoning | BareReasoning(v: Value) | Reasoning(effort: Value, enabled: Value, summary: Value, budget: Value, rest: string)

  datatype Thinking = NoThinking | BareThinking(v: Value) | Thinking(kind: Value, effort: Value, budget: Value, rest: string)

  datatype OutputConfig = NoConfig | BareConfig(v: Value) | Config(effort: Value, rest: string)

  datatype Payload = Payload(effort: Value, camelEffort: Value, reasoning: Reasoning, thinking: Thinking, config: OutputConfig,
                             enableThinking: Value, think: Value, disable: Value, summary: Value, rest: string)

  datatype Mode = Default | Disabled | Enabled | Effort(level: string)

  /** Where a control was found. */
  datatype Source =
    | Nowhere | TopEffort | CamelEffort | ReasoningEffort | ReasoningBare | ReasoningEnabled | ReasoningBudget
    | ThinkingEffort | ThinkingBare | ThinkingType | ThinkingBudget | ConfigEffort | EnableThinkingKey | ThinkKey | DisableKey

  datatype Control = Control(mode: Mode, source: Source, budget: Option<real>)

  /** The result of reading a field: nothing there, a control, or an error. */
  datatype Read = Nothing | Found(c: Control) | Invalid

  // ---------------------------------------------------------------- reading fields

  function LowerChar(c: char): char {
    if 'A' <= c <= 'Z' then c + 32 as char else c
  }

  function Normal(s: string): string {
    var t := Strip(s);
    seq(|t|, k requires 0 <= k < |t| => LowerChar(t[k]))
  }

  predicate SaysOff(s: string) {
    s in {"none", "off", "disable", "disabled", "false"}
  }

  predicate SaysOn(s: string) {
    s in {"auto", "enable", "enabled", "adaptive", "on", "true"}
  }

  function Alias(s: string): Option<string> {
    if s in {"minimal", "low", "medium", "high", "xhigh", "max", "ultra"} then Some(s)
    else if s in {"x-high", "extra_high", "extra-high"} then Some("xhigh")
    else None
  }

  function OnOff(on: bool): Mode {
    if on then Enabled else Disabled
  }

  function FromEffort(v: Value, source: Source): Read {
    match v
    case Missing => Nothing
    case Null => Nothing
    case Bool(b) => Found(Control(OnOff(b), source, None))
    case Str(s) =>
      var n := Normal(s);
      if n == "" then Invalid
      else if n == "default" then Found(Control(Default, source, None))
      else if SaysOff(n) then Found(Control(Disabled, source, None))
      else if SaysOn(n) then Found(Control(Enabled, source, None))
      else if Alias(n).Some? then Found(Control(Effort(Alias(n).value), source, None))
      else Invalid
    case Number(_, _) => Invalid
    case OtherValue(_) => Invalid
  }

  function FromSwitch(v: Value, source: Source): Read {
    match v
    case Missing => Nothing
    case Null => Nothing
    case Bool(b) => Found(Control(OnOff(b), source, None))
    case Number(r, integer) => if integer && (r == 0.0 || r == 1.0) then Found(Control(OnOff(r == 1.0), source, None)) else Invalid
    case Str(s) =>
      if SaysOff(Normal(s)) then Found(Control(Disabled, source, None))
      else if SaysOn(Normal(s)) then Found(Control(Enabled, source, None))
      else Invalid
    case OtherValue(_) => Invalid
  }

  function FromDisable(v: Value): Read {
    match v
    case Missing => Nothing
    case Null => Nothing
    case Bool(b) => if b then Found(Control(Disabled, DisableKey, None)) else Nothing
    case Number(r, _) => if r == 0.0 then Nothing else if r == 1.0 then Found(Control(Disabled, DisableKey, None)) else Invalid
    case Str(_) => Invalid
    case OtherValue(_) => Invalid
  }

  function FromBudget(v: Value, source: Source): Read {
    match v
    case Missing => Nothing
    case Null => Nothing
    case Number(r, _) => if r < 0.0 then Invalid else Found(Control(OnOff(r != 0.0), source, Some(r)))
    case Bool(_) => Invalid
    case Str(_) => Invalid
    case OtherValue(_) => Invalid
  }

  function FromType(v: Value): Read {
    match v
    case Missing => Nothing
    case Str(s) =>
      var n := Normal(s);
      if n == "disabled" then Found(Control(Disabled, ThinkingType, None))
      else if n == "enabled" || n == "adaptive" then Found(Control(Enabled, ThinkingType, None))
      else Invalid
    case Null => Invalid
    case Bool(_) => Invalid
    case Number(_, _) => Invalid
    case OtherValue(_) => Invalid
  }

  // ---------------------------------------------------------------- resolving

  /** Keep what was found, in order; None if a field is invalid. */
  function Gather(found: seq<Read>): Option<seq<Control>> {
    if found == [] then Some([])
    else if found[0].Invalid? then None
    else
      var rest := Gather(found[1..]);
      if rest.None? then None else Some((if found[0].Found? then [found[0].c] else []) + rest.value)
  }

  function EffortReads(p: Payload, preferNested: bool): seq<Read> {
    var top := FromEffort(p.effort, TopEffort);
    var nested := if p.reasoning.Reasoning? then FromEffort(p.reasoning.effort, ReasoningEffort) else Nothing;
    (if preferNested then [nested, top] else [top, nested])
    + [FromEffort(p.camelEffort, CamelEffort),
       if p.config.Config? then FromEffort(p.config.effort, ConfigEffort) else Nothing,
       if p.thinking.Thinking? then FromEffort(p.thinking.effort, ThinkingEffort) else Nothing,
       if p.reasoning.BareReasoning? then FromEffort(p.reasoning.v, ReasoningBare) else Nothing,
       if p.thinking.BareThinking? then FromEffort(p.thinking.v, ThinkingBare) else Nothing]
  }

  function SwitchReads(p: Payload): seq<Read> {
    [if p.thinking.Thinking? then FromType(p.thinking.kind) else Nothing,
     if p.thinking.Thinking? then FromBudget(p.thinking.budget, ThinkingBudget) else Nothing,
     if p.reasoning.Reasoning? then FromSwitch(p.reasoning.enabled, ReasoningEnabled) else Nothing,
     if p.reasoning.Reasoning? then FromBudget(p.reasoning.budget, ReasoningBudget) else Nothing,
     FromSwitch(p.enableThinking, EnableThinkingKey),
     FromSwitch(p.think, ThinkKey),
     FromDisable(p.disable)]
  }

  datatype Group = InReasoning | InThinking | Alone(s: Source)

  function GroupOf(s: Source): Group {
    if s in {ReasoningEffort, ReasoningBare, ReasoningEnabled, ReasoningBudget} then InReasoning
    else if s in {ThinkingEffort, ThinkingBare, ThinkingType, ThinkingBudget} then InThinking
    else Alone(s)
  }

  predicate IsOn(c: Control)
    requires !c.mode.Default?
  {
    !c.mode.Disabled?
  }

  /** Two controls of one native object that disagree. */
  predicate Conflict(cs: seq<Control>) {
    exists i, j | 0 <= i < |cs| && 0 <= j < |cs| ::
      && GroupOf(cs[i].source) == GroupOf(cs[j].source) && !GroupOf(cs[i].source).Alone?
      && !cs[i].mode.Default? && !cs[j].mode.Default? && IsOn(cs[i]) != IsOn(cs[j])
  }

  function FirstNotDefault(cs: seq<Control>): Option<Control> {
    if cs == [] then None else if !cs[0].mode.Default? then Some(cs[0]) else FirstNotDefault(cs[1..])
  }

  /** The first budget among the controls of a group. */
  function BudgetIn(cs: seq<Control>, g: Group): Option<real> {
    if cs == [] then None
    else if GroupOf(cs[0].source) == g && cs[0].budget.Some? then cs[0].budget
    else BudgetIn(cs[1..], g)
  }

  function Choose(efforts: seq<Control>, switches: seq<Control>): Control {
    var selected := FirstNotDefault(efforts);
    if selected.Some? then
      var g := GroupOf(selected.value.source);
      var budget := if g.Alone? then None else BudgetIn(switches, g);
      if budget.Some? then selected.value.(budget := budget) else selected.value
    else if switches != [] then
      var budget := BudgetIn(switches, GroupOf(switches[0].source));
      if budget.Some? && switches[0].budget.None? then switches[0].(budget := budget) else switches[0]
    else Control(Default, Nowhere, None)
  }

  /** None stands for the exception. */
  function Resolve(p: Payload, preferNested: bool): Option<Control> {
    var efforts, switches := Gather(EffortReads(p, preferNested)), Gather(SwitchReads(p));
    if efforts.None? || switches.None? || Conflict(efforts.value + switches.value) then None
    else Some(Choose(efforts.value, switches.value))
  }

  // ---------------------------------------------------------------- projections

  function ChatEffort(c: Control): Option<string> {
    match c.mode
    case Default => None
    case Disabled => Some("none")
    case Enabled => Some("high")
    case Effort(level) => Some(level)
  }

  function WorkBuddyEffort(c: Control): Option<string> {
    match c.mode
    case Default => None
    case Disabled => None
    case Enabled => Some("high")
    case Effort(level) =>
      if level in {"minimal", "low"} then Some("low")
      else if level in {"medium", "high"} then Some("high")
      else if level in {"xhigh", "max", "ultra"} then Some("max")
      else Some(level)
  }

  // ---------------------------------------------------------------- normalising

  function NormalReasoning(r: Reasoning): Reasoning {
    if r.Reasoning? && (r.budget != Missing || r.rest != "") then Reasoning(Missing, Missing, Missing, r.budget, r.rest) else NoReasoning
  }

  function NormalThinking(t: Thinking): Thinking {
    if t.Thinking? && (t.budget != Missing || t.rest != "") then Thinking(Missing, Missing, t.budget, t.rest) else NoThinking
  }

  function NormalConfig(c: OutputConfig): OutputConfig {
    if c.Config? && c.effort != Missing then if c.rest != "" then Config(Missing, c.rest) else NoConfig else c
  }

  function NormalSummary(p: Payload): Value {
    if p.reasoning.Reasoning? && p.reasoning.summary !in {Missing, Null} && p.summary == Missing then p.reasoning.summary else p.summary
  }

  function EffortField(c: Control): Value {
    if ChatEffort(c).Some? then Str(ChatEffort(c).value) else Missing
  }

  function Normalize(p: Payload, preferNested: bool): Option<Payload> {
    var c := Resolve(p, preferNested);
    if c.None? then None
    else Some(Payload(EffortField(c.value), Missing, NormalReasoning(p.reasoning), NormalThinking(p.thinking), NormalConfig(p.config),
                      Missing, Missing, Missing, NormalSummary(p), p.rest))
  }

  /** The copy and the removals, as the source writes them. */
  method NormalizeChatReasoning(p: Payload, preferNested: bool) returns (r: Option<Payload>)
    ensures r == Normalize(p, preferNested)
  {
    hide Resolve;
    var control := Resolve(p, preferNested);
    if control.None? {
      return None;
    }
    var summary := p.summary;
    var reasoning, thinking, config := NoReasoning, NoThinking, p.config;
    if p.reasoning.Reasoning? {
      var remaining := p.reasoning;
      if remaining.summary != Missing && remaining.summary != Null && summary == Missing {
        summary := remaining.summary;
      }
      remaining := Reasoning(Missing, Missing, Missing, remaining.budget, remaining.rest);
      if remaining.budget != Missing || remaining.rest != "" {
        reasoning := remaining;
      }
    }
    if p.thinking.Thinking? {
      var remaining := Thinking(Missing, Missing, p.thinking.budget, p.thinking.rest);
      if remaining.budget != Missing || remaining.rest != "" {
        thinking := remaining;
      }
    }
    if config.Config? && config.effort != Missing {
      config := if config.rest != "" then Config(Missing, config.rest) else NoConfig;
    }
    var effort := ChatEffort(control.value);
    r := Some(Payload(if effort.None? then Missing else Str(effort.value), Missing, reasoning, thinking, config,
                      Missing, Missing, Missing, summary, p.rest));
  }

  // ---------------------------------------------------------------- meaning is kept

  lemma {:induction false} GatherAll(found: seq<Read>)
    requires forall k | 0 <= k < |found| :: !found[k].Invalid?
    ensures Gather(found).Some?
    ensures forall c | c in Gather(found).value :: Found(c) in found
    ensures forall k | 0 <= k < |found| && found[k].Found? :: found[k].c in Gather(found).value
  {
    if found != [] {
      GatherAll(found[1..]);
      assert found == [found[0]] + found[1..];
    }
  }

  lemma {:induction false} GatherFirst(found: seq<Read>)
    requires Gather(found).Some?
    ensures forall k | 0 <= k < |found| :: !found[k].Invalid?
    ensures forall k | 0 <= k < |found| && found[k].Found? :: found[k].c in Gather(found).value
  {
    if found != [] {
      GatherFirst(found[1..]);
      assert found == [found[0]] + found[1..];
    }
  }

  /** The words that normalising writes are their own normal form. */
  lemma WordsAreNormal(w: string)
    requires w in {"none", "minimal", "low", "medium", "high", "xhigh", "max", "ultra"}
    ensures Normal(w) == w
  {
    assert StripLeft(w) == w && StripRight(w) == w;
    assert forall k | 0 <= k < |w| :: LowerChar(w[k]) == w[k];
  }

  lemma EffortRead(c: Control)
    requires c.mode.Effort? ==> Alias(c.mode.level) == Some(c.mode.level)
    ensures var read := FromEffort(EffortField(c), TopEffort);
            if c.mode.Default? then read == Nothing
            else read.Found? && read.c.source == TopEffort && read.c.budget.None? && !read.c.mode.Default?
                 && ChatEffort(read.c) == ChatEffort(c) && WorkBuddyEffort(read.c) == WorkBuddyEffort(c)
  {
    hide Normal;
    if c.mode.Disabled? {
      WordsAreNormal("none");
    } else if c.mode.Enabled? {
      WordsAreNormal("high");
    } else if c.mode.Effort? {
      WordsAreNormal(c.mode.level);
    }
  }

  lemma {:induction false} GatherOnly(found: seq<Read>, k: nat)
    requires k < |found| && !found[k].Invalid? && forall i | 0 <= i < |found| && i != k :: found[i].Nothing?
    ensures Gather(found) == Some(if found[k].Found? then [found[k].c] else [])
  {
    if k == 0 {
      GatherNothing(found[1..]);
      var here := if found[0].Found? then [found[0].c] else [];
      assert here + [] == here;
    } else {
      GatherOnly(found[1..], k - 1);
      assert [] + Gather(found[1..]).value == Gather(found[1..]).value;
    }
  }

  lemma {:induction false} GatherNothing(found: seq<Read>)
    requires forall i | 0 <= i < |found| :: found[i].Nothing?
    ensures Gather(found) == Some([])
  {
    if found != [] {
      GatherNothing(found[1..]);
      assert [] + Gather(found[1..]).value == Gather(found[1..]).value;
    }
  }

  lemma {:induction false} GatheredEmpty(found: seq<Read>)
    requires Gather(found) == Some([])
    ensures forall i | 0 <= i < |found| :: found[i].Nothing?
  {
    if found != [] {
      GatheredEmpty(found[1..]);
      assert found == [found[0]] + found[1..];
    }
  }

  lemma FromEffortCanonical(v: Value, source: Source)
    ensures var found := FromEffort(v, source);
            found.Found? && found.c.mode.Effort? ==> Alias(found.c.mode.level) == Some(found.c.mode.level)
  {
    hide Normal;
  }

  predicate Canonical(c: Control) {
    c.mode.Effort? ==> Alias(c.mode.level) == Some(c.mode.level)
  }

  lemma EffortsCanonical(p: Payload, preferNested: bool)
    ensures forall k | 0 <= k < |EffortReads(p, preferNested)| && EffortReads(p, preferNested)[k].Found? ::
              Canonical(EffortReads(p, preferNested)[k].c)
  {
    hide FromEffort, Alias;
    FromEffortCanonical(p.effort, TopEffort);
    FromEffortCanonical(p.camelEffort, CamelEffort);
    if p.reasoning.Reasoning? { FromEffortCanonical(p.reasoning.effort, ReasoningEffort); }
    if p.config.Config? { FromEffortCanonical(p.config.effort, ConfigEffort); }
    if p.thinking.Thinking? { FromEffortCanonical(p.thinking.effort, ThinkingEffort); }
    if p.reasoning.BareReasoning? { FromEffortCanonical(p.reasoning.v, ReasoningBare); }
    if p.thinking.BareThinking? { FromEffortCanonical(p.thinking.v, ThinkingBare); }
  }

  lemma SwitchesPlain(p: Payload)
    ensures forall k | 0 <= k < |SwitchReads(p)| && SwitchReads(p)[k].Found? ::
              SwitchReads(p)[k].c.mode.Disabled? || SwitchReads(p)[k].c.mode.Enabled?
  {
    hide Normal;
  }

  lemma {:induction false} FirstIs(cs: seq<Control>)
    ensures var f := FirstNotDefault(cs); f.Some? ==> f.value in cs && !f.value.mode.Default?
  {
    if cs != [] {
      FirstIs(cs[1..]);
    }
  }

  /** What a successful resolution chooses. */
  lemma ChosenIs(p: Payload, preferNested: bool)
    requires Resolve(p, preferNested).Some?
    ensures var c := Resolve(p, preferNested).value;
            Canonical(c) && (c.mode.Default? ==> Gather(SwitchReads(p)) == Some([]))
  {
    hide EffortReads, SwitchReads, Conflict, BudgetIn, Alias;
    var efforts, switches := Gather(EffortReads(p, preferNested)).value, Gather(SwitchReads(p)).value;
    GatherFirst(EffortReads(p, preferNested));
    GatherAll(EffortReads(p, preferNested));
    GatherFirst(SwitchReads(p));
    GatherAll(SwitchReads(p));
    EffortsCanonical(p, preferNested);
    SwitchesPlain(p);
    FirstIs(efforts);
    var selected := FirstNotDefault(efforts);
    if selected.Some? {
      assert Found(selected.value) in EffortReads(p, preferNested);
    } else if switches != [] {
      assert Found(switches[0]) in SwitchReads(p);
    }
  }

  // ---------------------------------------------------------------- resolving a normalised payload

  /** The effort fields of a normalised payload. */
  lemma NormalEfforts(p: Payload, q: Payload, preferNested: bool, c: Control)
    requires Canonical(c) && q.effort == EffortField(c) && q.camelEffort == Missing && q.reasoning == NormalReasoning(p.reasoning)
             && q.thinking == NormalThinking(p.thinking) && q.config == NormalConfig(p.config)
    ensures var read := FromEffort(EffortField(c), TopEffort);
            !read.Invalid? && Gather(EffortReads(q, preferNested)) == Some(if read.Found? then [read.c] else [])
  {
    hide Gather, Alias;
    EffortRead(c);
    var k := if preferNested then 1 else 0;
    var found := EffortReads(q, preferNested);
    assert found[k] == FromEffort(EffortField(c), TopEffort);
    OthersNothing(p, q, preferNested, k);
    GatherOnly(found, k);
  }

  lemma OthersNothing(p: Payload, q: Payload, preferNested: bool, k: nat)
    requires q.camelEffort == Missing && q.reasoning == NormalReasoning(p.reasoning)
             && q.thinking == NormalThinking(p.thinking) && q.config == NormalConfig(p.config) && k == if preferNested then 1 else 0
    ensures forall i | 0 <= i < 7 && i != k :: EffortReads(q, preferNested)[i].Nothing?
  {
    hide Normal;
  }

  /** The switches of a normalised payload are the budgets that the payload had. */
  lemma NormalSwitches(p: Payload, q: Payload)
    requires Gather(SwitchReads(p)).Some?
    requires q.reasoning == NormalReasoning(p.reasoning) && q.thinking == NormalThinking(p.thinking)
             && q.enableThinking == Missing && q.think == Missing && q.disable == Missing
    ensures Gather(SwitchReads(q)).Some?
    ensures Gather(SwitchReads(p)) == Some([]) ==> Gather(SwitchReads(q)) == Some([])
    ensures forall c, d | c in Gather(SwitchReads(q)).value && d in Gather(SwitchReads(q)).value && c.source == d.source :: c == d
    ensures forall c | c in Gather(SwitchReads(q)).value :: c.source in {ThinkingBudget, ReasoningBudget}
  {
    hide Gather, FromBudget, FromType, FromSwitch;
    GatherFirst(SwitchReads(p));
    SwitchesLeft(p, q);
    GatherAll(SwitchReads(q));
    if Gather(SwitchReads(p)) == Some([]) {
      GatheredEmpty(SwitchReads(p));
      GatherNothing(SwitchReads(q));
    }
    SwitchSources(q);
  }

  lemma SwitchesLeft(p: Payload, q: Payload)
    requires q.reasoning == NormalReasoning(p.reasoning) && q.thinking == NormalThinking(p.thinking)
             && q.enableThinking == Missing && q.think == Missing && q.disable == Missing
    ensures |SwitchReads(p)| == |SwitchReads(q)| == 7
    ensures forall k | 0 <= k < 7 :: SwitchReads(q)[k] == SwitchReads(p)[k] || SwitchReads(q)[k].Nothing?
    ensures forall k | 0 <= k < 7 && k != 1 && k != 3 :: SwitchReads(q)[k].Nothing?
  {
    hide Normal;
  }

  lemma SwitchSources(q: Payload)
    ensures SwitchReads(q)[1].Found? ==> SwitchReads(q)[1].c.source == ThinkingBudget
    ensures SwitchReads(q)[3].Found? ==> SwitchReads(q)[3].c.source == ReasoningBudget
  {
  }

  lemma NoConflict(efforts: seq<Control>, switches: seq<Control>)
    requires |efforts| <= 1 && forall c | c in efforts :: c.source == TopEffort
    requires forall c, d | c in switches && d in switches && c.source == d.source :: c == d
    requires forall c | c in switches :: c.source in {ThinkingBudget, ReasoningBudget}
    ensures !Conflict(efforts + switches)
  {
    var cs := efforts + switches;
    forall i, j | 0 <= i < |cs| && 0 <= j < |cs| && GroupOf(cs[i].source) == GroupOf(cs[j].source) && !GroupOf(cs[i].source).Alone?
      ensures cs[i] == cs[j]
    {
      assert cs[i] in efforts || cs[i] in switches;
      assert cs[j] in efforts || cs[j] in switches;
    }
  }

  /**
    Normalising keeps the meaning: resolving the normal form succeeds, whichever fields either pass prefers, and asks for
    the same chat effort and the same WorkBuddy effort; and normalising again changes nothing.
   */
  lemma NormalizeKeepsMeaning(p: Payload, first: bool, second: bool)
    requires Resolve(p, first).Some?
    ensures var q := Normalize(p, first).value; var c, d := Resolve(p, first).value, Resolve(q, second);
            && d.Some? && ChatEffort(d.value) == ChatEffort(c) && WorkBuddyEffort(d.value) == WorkBuddyEffort(c)
            && Normalize(q, second) == Some(q)
  {
    hide EffortReads, SwitchReads, Conflict, Alias, FromEffort, Gather, NormalReasoning, NormalThinking, NormalConfig, NormalSummary, ChatEffort, WorkBuddyEffort;
    var c, q := Resolve(p, first).value, Normalize(p, first).value;
    ChosenIs(p, first);
    NormalEfforts(p, q, second, c);
    NormalSwitches(p, q);
    EffortRead(c);
    var read := FromEffort(EffortField(c), TopEffort);
    var efforts := if read.Found? then [read.c] else [];
    var switches := Gather(SwitchReads(q)).value;
    NoConflict(efforts, switches);
    NormalTwice(p, c);
    assert Resolve(q, second) == Some(Choose(efforts, switches));
    if read.Found? {
      ChooseTop(read.c, switches);
    } else {
      assert efforts == [] && switches == [];
      ChooseNothing();
      DefaultAsksNothing(c);
      DefaultAsksNothing(Control(Default, Nowhere, None));
    }
  }

  lemma ChooseTop(c: Control, switches: seq<Control>)
    requires c.source == TopEffort && !c.mode.Default?
    ensures Choose([c], switches) == c
  {
  }

  lemma ChooseNothing()
    ensures Choose([], []) == Control(Default, Nowhere, None)
  {
  }

  lemma DefaultAsksNothing(c: Control)
    requires c.mode.Default?
    ensures ChatEffort(c) == None && WorkBuddyEffort(c) == None
  {
  }

  lemma NormalTwice(p: Payload, c: Control)
    ensures NormalReasoning(NormalReasoning(p.reasoning)) == NormalReasoning(p.reasoning)
    ensures NormalThinking(NormalThinking(p.thinking)) == NormalThinking(p.thinking)
    ensures NormalConfig(NormalConfig(p.config)) == NormalConfig(p.config)
    ensures forall q: Payload | q.reasoning == NormalReasoning(p.reasoning) :: NormalSummary(q) == q.summary
  {
  }
}
