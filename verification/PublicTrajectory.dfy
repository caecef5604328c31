// What of an agent's plan and steps is shown: strings that trip the leak check are redacted, tools the
// registry does not know are renamed, and details disappear from an abstained run.

module PublicTrajectory {
  import opened Options

  const REDACTION: string := "[redacted]"

  // JSON values as tool arguments hold them; an object's fields in insertion order.
  datatype Value = Text(text: string) | Scalar(code: int) | List(items: Values) | Object(fields: Fields)

  datatype Values = Nil | Cons(head: Value, tail: Values)

  datatype Fields = NoFields | Field(key: string, value: Value, rest: Fields)

  datatype StepRecord = StepRecord(
    round: nat, tool: Option<string>, args: Option<Fields>, preview: Option<string>, blocked: Option<string>)

  const CONTROL_TOOLS: set<string> := {"finalize", "ask_user"}

  function Redacted(leaks: string -> bool, s: string): string {
    if leaks(s) then REDACTION else s
  }

  // Assigning a key of an insertion-ordered dictionary.
  function Put(f: Fields, key: string, value: Value): Fields {
    match f
    case NoFields => Field(key, value, NoFields)
    case Field(k, v, rest) => if k == key then Field(k, value, rest) else Field(k, v, Put(rest, key, value))
  }

  // _sanitize_public_value; two keys redacted alike become one field.
  function Sanitized(leaks: string -> bool, v: Value): Value {
    match v
    case Text(s) => Text(Redacted(leaks, s))
    case Scalar(_) => v
    case List(items) => List(SanitizedItems(leaks, items))
    case Object(fields) => Object(SanitizedFields(leaks, fields, NoFields))
  }

  function SanitizedItems(leaks: string -> bool, items: Values): Values {
    match items
    case Nil => Nil
    case Cons(head, tail) => Cons(Sanitized(leaks, head), SanitizedItems(leaks, tail))
  }

  function SanitizedFields(leaks: string -> bool, fields: Fields, into: Fields): Fields
    decreases fields
  {
    match fields
    case NoFields => into
    case Field(k, v, rest) => SanitizedFields(leaks, rest, Put(into, Redacted(leaks, k), Sanitized(leaks, v)))
  }

  // The arguments of a step: values are sanitized, the argument names stay.
  function SanitizedArgs(leaks: string -> bool, args: Fields): Fields {
    match args
    case NoFields => NoFields
    case Field(k, v, rest) => Field(k, Sanitized(leaks, v), SanitizedArgs(leaks, rest))
  }

  function PublicStep(leaks: string -> bool, known: set<string>, redact: bool, s: StepRecord): StepRecord {
    s.(tool := if s.tool.Some? && s.tool.value !in CONTROL_TOOLS && s.tool.value !in known then Some("blocked_tool") else s.tool,
       args := if redact || (s.tool.Some? && s.tool.value in CONTROL_TOOLS) then None
               else if s.args.Some? then Some(SanitizedArgs(leaks, s.args.value)) else None,
       preview := if redact || s.preview.None? then None else Some(Redacted(leaks, s.preview.value)))
  }

  function PublicSteps(leaks: string -> bool, known: set<string>, redact: bool, steps: seq<StepRecord>): seq<StepRecord> {
    seq(|steps|, i requires 0 <= i < |steps| => PublicStep(leaks, known, redact, steps[i]))
  }

  function PublicPlan(leaks: string -> bool, plan: seq<string>): seq<string> {
    seq(|plan|, i requires 0 <= i < |plan| => Redacted(leaks, plan[i]))
  }

  // ---- sanitizing twice is sanitizing once ----

  predicate HasKey(f: Fields, key: string) {
    f.Field? && (f.key == key || HasKey(f.rest, key))
  }

  // Already public: distinct keys that pass the check, and public values.
  predicate Settled(leaks: string -> bool, f: Fields) {
    match f
    case NoFields => true
    case Field(k, v, rest) => !leaks(k) && !HasKey(rest, k) && Sanitized(leaks, v) == v && Settled(leaks, rest)
  }

  lemma {:induction false} PutSettles(leaks: string -> bool, f: Fields, key: string, value: Value)
    requires Settled(leaks, f) && !leaks(key) && Sanitized(leaks, value) == value
    ensures Settled(leaks, Put(f, key, value))
    ensures forall k :: HasKey(Put(f, key, value), k) <==> HasKey(f, k) || k == key
  {
    match f
    case NoFields =>
    case Field(k, v, rest) =>
      if k != key {
        PutSettles(leaks, rest, key, value);
      }
  }

  lemma {:induction false} FieldsSettle(leaks: string -> bool, fields: Fields, into: Fields)
    requires !leaks(REDACTION) && Settled(leaks, into)
    ensures Settled(leaks, SanitizedFields(leaks, fields, into))
    decreases fields
  {
    match fields
    case NoFields =>
    case Field(k, v, rest) =>
      SanitizingTwice(leaks, v);
      PutSettles(leaks, into, Redacted(leaks, k), Sanitized(leaks, v));
      FieldsSettle(leaks, rest, Put(into, Redacted(leaks, k), Sanitized(leaks, v)));
  }

  function Joined(a: Fields, b: Fields): Fields {
    match a
    case NoFields => b
    case Field(k, v, rest) => Field(k, v, Joined(rest, b))
  }

  lemma {:induction false} PutNew(a: Fields, key: string, value: Value)
    requires !HasKey(a, key)
    ensures Put(a, key, value) == Joined(a, Field(key, value, NoFields))
  {
    if a.Field? {
      PutNew(a.rest, key, value);
    }
  }

  lemma {:induction false} JoinedFacts(leaks: string -> bool, a: Fields, key: string, value: Value, b: Fields)
    ensures Joined(Joined(a, Field(key, value, NoFields)), b) == Joined(a, Field(key, value, b))
    ensures Settled(leaks, Joined(a, Field(key, value, b))) ==> !HasKey(a, key)
  {
    if a.Field? {
      JoinedFacts(leaks, a.rest, key, value, b);
      JoinedHas(a.rest, key, value, b);
    }
  }

  lemma {:induction false} JoinedHas(a: Fields, key: string, value: Value, b: Fields)
    ensures HasKey(Joined(a, Field(key, value, b)), key)
  {
    if a.Field? {
      JoinedHas(a.rest, key, value, b);
    }
  }

  lemma {:induction false} JoinedSettled(leaks: string -> bool, a: Fields, b: Fields)
    requires Settled(leaks, Joined(a, b))
    ensures Settled(leaks, b)
  {
    if a.Field? {
      JoinedSettled(leaks, a.rest, b);
    }
  }

  // Fields that are public already are rebuilt as they are.
  lemma {:induction false} SettledIsFixed(leaks: string -> bool, fields: Fields, into: Fields)
    requires Settled(leaks, Joined(into, fields))
    ensures SanitizedFields(leaks, fields, into) == Joined(into, fields)
    decreases fields
  {
    match fields
    case NoFields => JoinedNothing(into);
    case Field(k, v, rest) =>
      JoinedSettled(leaks, into, fields);
      JoinedFacts(leaks, into, k, v, rest);
      PutNew(into, k, v);
      SettledIsFixed(leaks, rest, Put(into, k, v));
  }

  lemma {:induction false} JoinedNothing(a: Fields)
    ensures Joined(a, NoFields) == a
  {
    if a.Field? {
      JoinedNothing(a.rest);
    }
  }

  // Main result: sanitizing a value twice is sanitizing it once, nested objects and merged keys included.
  lemma {:induction false} SanitizingTwice(leaks: string -> bool, v: Value)
    requires !leaks(REDACTION)
    ensures Sanitized(leaks, Sanitized(leaks, v)) == Sanitized(leaks, v)
    decreases v
  {
    match v
    case Text(_) =>
    case Scalar(_) =>
    case List(items) => SanitizingItemsTwice(leaks, items);
    case Object(fields) =>
      FieldsSettle(leaks, fields, NoFields);
      SettledIsFixed(leaks, SanitizedFields(leaks, fields, NoFields), NoFields);
  }

  lemma {:induction false} SanitizingItemsTwice(leaks: string -> bool, items: Values)
    requires !leaks(REDACTION)
    ensures SanitizedItems(leaks, SanitizedItems(leaks, items)) == SanitizedItems(leaks, items)
    decreases items
  {
    if items.Cons? {
      SanitizingTwice(leaks, items.head);
      SanitizingItemsTwice(leaks, items.tail);
    }
  }

  lemma {:induction false} SanitizingArgsTwice(leaks: string -> bool, args: Fields)
    requires !leaks(REDACTION)
    ensures SanitizedArgs(leaks, SanitizedArgs(leaks, args)) == SanitizedArgs(leaks, args)
  {
    if args.Field? {
      SanitizingTwice(leaks, args.value);
      SanitizingArgsTwice(leaks, args.rest);
    }
  }

  lemma PublishingStepTwice(leaks: string -> bool, known: set<string>, redact: bool, s: StepRecord)
    requires !leaks(REDACTION)
    ensures PublicStep(leaks, known, redact, PublicStep(leaks, known, redact, s)) == PublicStep(leaks, known, redact, s)
  {
    if s.args.Some? {
      SanitizingArgsTwice(leaks, s.args.value);
    }
  }

  // Publishing a published trajectory changes nothing.
  lemma PublishingTwice(leaks: string -> bool, known: set<string>, redact: bool, steps: seq<StepRecord>, plan: seq<string>)
    requires !leaks(REDACTION)
    ensures PublicSteps(leaks, known, redact, PublicSteps(leaks, known, redact, steps)) == PublicSteps(leaks, known, redact, steps)
    ensures PublicPlan(leaks, PublicPlan(leaks, plan)) == PublicPlan(leaks, plan)
  {
    forall s ensures PublicStep(leaks, known, redact, PublicStep(leaks, known, redact, s)) == PublicStep(leaks, known, redact, s) {
      PublishingStepTwice(leaks, known, redact, s);
    }
  }

  // ---- nothing that leaks is shown ----

  // No text and no object key inside the value trips the leak check.
  predicate Safe(leaks: string -> bool, v: Value) {
    match v
    case Text(s) => !leaks(s)
    case Scalar(_) => true
    case List(items) => SafeItems(leaks, items)
    case Object(fields) => SafeFields(leaks, fields)
  }

  predicate SafeItems(leaks: string -> bool, items: Values) {
    items.Cons? ==> Safe(leaks, items.head) && SafeItems(leaks, items.tail)
  }

  predicate SafeFields(leaks: string -> bool, fields: Fields) {
    fields.Field? ==> !leaks(fields.key) && Safe(leaks, fields.value) && SafeFields(leaks, fields.rest)
  }

  // No object inside the value has a key twice, as no dictionary has.
  predicate Distinct(v: Value) {
    match v
    case List(items) => DistinctItems(items)
    case Object(fields) => DistinctFields(fields)
    case _ => true
  }

  predicate DistinctItems(items: Values) {
    items.Cons? ==> Distinct(items.head) && DistinctItems(items.tail)
  }

  predicate DistinctFields(fields: Fields) {
    fields.Field? ==> !HasKey(fields.rest, fields.key) && Distinct(fields.value) && DistinctFields(fields.rest)
  }

  lemma {:induction false} PutIsSafe(leaks: string -> bool, f: Fields, key: string, value: Value)
    requires SafeFields(leaks, f) && !leaks(key) && Safe(leaks, value)
    ensures SafeFields(leaks, Put(f, key, value))
  {
    if f.Field? && f.key != key {
      PutIsSafe(leaks, f.rest, key, value);
    }
  }

  // Main result: whatever the value, however nested, what is shown of it holds no text and no key that leaks.
  lemma {:induction false} SanitizedIsSafe(leaks: string -> bool, v: Value)
    requires !leaks(REDACTION)
    ensures Safe(leaks, Sanitized(leaks, v))
    decreases v
  {
    match v
    case Text(_) =>
    case Scalar(_) =>
    case List(items) => SanitizedItemsAreSafe(leaks, items);
    case Object(fields) => SanitizedFieldsAreSafe(leaks, fields, NoFields);
  }

  lemma {:induction false} SanitizedItemsAreSafe(leaks: string -> bool, items: Values)
    requires !leaks(REDACTION)
    ensures SafeItems(leaks, SanitizedItems(leaks, items))
    decreases items
  {
    if items.Cons? {
      SanitizedIsSafe(leaks, items.head);
      SanitizedItemsAreSafe(leaks, items.tail);
    }
  }

  lemma {:induction false} SanitizedFieldsAreSafe(leaks: string -> bool, fields: Fields, into: Fields)
    requires !leaks(REDACTION) && SafeFields(leaks, into)
    ensures SafeFields(leaks, SanitizedFields(leaks, fields, into))
    decreases fields
  {
    if fields.Field? {
      SanitizedIsSafe(leaks, fields.value);
      PutIsSafe(leaks, into, Redacted(leaks, fields.key), Sanitized(leaks, fields.value));
      SanitizedFieldsAreSafe(leaks, fields.rest, Put(into, Redacted(leaks, fields.key), Sanitized(leaks, fields.value)));
    }
  }

  // Main result: a value in which nothing leaks is shown as it is.
  lemma {:induction false} SafeIsShown(leaks: string -> bool, v: Value)
    requires Safe(leaks, v) && Distinct(v)
    ensures Sanitized(leaks, v) == v
    decreases v
  {
    match v
    case Text(_) =>
    case Scalar(_) =>
    case List(items) => SafeItemsAreShown(leaks, items);
    case Object(fields) =>
      SafeFieldsAreSettled(leaks, fields);
      SettledIsFixed(leaks, fields, NoFields);
  }

  lemma {:induction false} SafeItemsAreShown(leaks: string -> bool, items: Values)
    requires SafeItems(leaks, items) && DistinctItems(items)
    ensures SanitizedItems(leaks, items) == items
    decreases items
  {
    if items.Cons? {
      SafeIsShown(leaks, items.head);
      SafeItemsAreShown(leaks, items.tail);
    }
  }

  lemma {:induction false} SafeFieldsAreSettled(leaks: string -> bool, fields: Fields)
    requires SafeFields(leaks, fields) && DistinctFields(fields)
    ensures Settled(leaks, fields)
    decreases fields
  {
    if fields.Field? {
      SafeIsShown(leaks, fields.value);
      SafeFieldsAreSettled(leaks, fields.rest);
    }
  }

  // The field a lookup finds, and the last one that would be shown under a name.
  function At(f: Fields, key: string): Option<Value> {
    match f
    case NoFields => None
    case Field(k, v, rest) => if k == key then Some(v) else At(rest, key)
  }

  function LastShownAs(leaks: string -> bool, f: Fields, key: string): Option<Value> {
    match f
    case NoFields => None
    case Field(k, v, rest) =>
      var later := LastShownAs(leaks, rest, key);
      if later.Some? then later else if key == (if leaks(k) then REDACTION else k) then Some(v) else None
  }

  lemma {:induction false} PutAt(f: Fields, key: string, value: Value, other: string)
    ensures At(Put(f, key, value), other) == if other == key then Some(value) else At(f, other)
  {
    if f.Field? && f.key != key {
      PutAt(f.rest, key, value, other);
    }
  }

  // An object shows each field under its own name or, if that leaks, the redaction; of several fields under
  // one name the last. Every value is sanitized on its own.
  lemma {:induction false} FieldsAreShown(leaks: string -> bool, fields: Fields, into: Fields, key: string)
    ensures At(SanitizedFields(leaks, fields, into), key) ==
              match LastShownAs(leaks, fields, key)
              case Some(v) => Some(Sanitized(leaks, v))
              case None => At(into, key)
    decreases fields
  {
    if fields.Field? {
      var shown := Sanitized(leaks, fields.value);
      PutAt(into, Redacted(leaks, fields.key), shown, key);
      FieldsAreShown(leaks, fields.rest, Put(into, Redacted(leaks, fields.key), shown), key);
    }
  }

  function Count(items: Values): nat {
    if items.Nil? then 0 else 1 + Count(items.tail)
  }

  function Nth(items: Values, i: nat): Value
    requires i < Count(items)
  {
    if i == 0 then items.head else Nth(items.tail, i - 1)
  }

  // A list shows its items one for one.
  lemma {:induction false} ItemsAreShown(leaks: string -> bool, items: Values)
    ensures Count(SanitizedItems(leaks, items)) == Count(items)
    ensures forall i: nat :: i < Count(items) ==> Nth(SanitizedItems(leaks, items), i) == Sanitized(leaks, Nth(items, i))
  {
    if items.Cons? {
      ItemsAreShown(leaks, items.tail);
      var shown := SanitizedItems(leaks, items);
      forall i: nat | i < Count(items) ensures Nth(shown, i) == Sanitized(leaks, Nth(items, i)) {
        if i > 0 {
          assert Nth(shown, i) == Nth(shown.tail, i - 1) && Nth(items, i) == Nth(items.tail, i - 1);
        }
      }
    }
  }

  // ---- what is shown of a step ----

  predicate SafeArgs(leaks: string -> bool, args: Fields) {
    args.Field? ==> Safe(leaks, args.value) && SafeArgs(leaks, args.rest)
  }

  predicate DistinctArgs(args: Fields) {
    args.Field? ==> Distinct(args.value) && DistinctArgs(args.rest)
  }

  predicate SameNames(a: Fields, b: Fields) {
    if a.NoFields? then b.NoFields? else b.Field? && a.key == b.key && SameNames(a.rest, b.rest)
  }

  // Of a step only known tools are named, and nothing in its details leaks. A run that hides its details and
  // a control step, whose arguments hold an answer nobody checked, show none.
  predicate SafeStep(leaks: string -> bool, known: set<string>, redact: bool, s: StepRecord) {
    && (s.tool.Some? ==> s.tool.value in known || s.tool.value in {"finalize", "ask_user", "blocked_tool"})
    && (redact ==> s.args.None? && s.preview.None?)
    && (s.tool.Some? && s.tool.value in {"finalize", "ask_user"} ==> s.args.None?)
    && (s.args.Some? ==> SafeArgs(leaks, s.args.value))
    && (s.preview.Some? ==> !leaks(s.preview.value))
  }

  // What a shown step owes its record: everything that may be shown.
  predicate ShowsStep(leaks: string -> bool, known: set<string>, redact: bool, s: StepRecord, shown: StepRecord) {
    var control := s.tool.Some? && s.tool.value in {"finalize", "ask_user"};
    && shown.round == s.round && shown.blocked == s.blocked
    && shown.tool == (if s.tool.None? || control || s.tool.value in known then s.tool else Some("blocked_tool"))
    && (!redact && !control ==>
          if s.args.None? then shown.args.None?
          else shown.args.Some? && SameNames(s.args.value, shown.args.value)
               && (SafeArgs(leaks, s.args.value) && DistinctArgs(s.args.value) ==> shown.args == s.args))
    && (!redact ==>
          if s.preview.None? then shown.preview.None?
          else shown.preview == if leaks(s.preview.value) then Some(REDACTION) else s.preview)
  }

  lemma {:induction false} ArgsAreSafe(leaks: string -> bool, args: Fields)
    ensures !leaks(REDACTION) ==> SafeArgs(leaks, SanitizedArgs(leaks, args))
    ensures SameNames(args, SanitizedArgs(leaks, args))
    ensures SafeArgs(leaks, args) && DistinctArgs(args) ==> SanitizedArgs(leaks, args) == args
  {
    if args.Field? {
      ArgsAreSafe(leaks, args.rest);
      if !leaks(REDACTION) {
        SanitizedIsSafe(leaks, args.value);
      }
      if SafeArgs(leaks, args) && DistinctArgs(args) {
        SafeIsShown(leaks, args.value);
      }
    }
  }

  // Steps and plan as a response shows them: nothing leaks, and whatever may be shown is.
  ghost predicate SafelyShown(leaks: string -> bool, known: set<string>, redact: bool, steps: seq<StepRecord>, shown: seq<StepRecord>) {
    && |shown| == |steps|
    && forall i :: 0 <= i < |steps| ==>
         SafeStep(leaks, known, redact, shown[i]) && ShowsStep(leaks, known, redact, steps[i], shown[i])
  }

  predicate SafePlan(leaks: string -> bool, plan: seq<string>, shown: seq<string>) {
    && |shown| == |plan|
    && forall i :: 0 <= i < |plan| ==> !leaks(shown[i]) && shown[i] == if leaks(plan[i]) then REDACTION else plan[i]
  }

  // Main result: a published trajectory and plan show nothing that leaks and everything else.
  lemma PublishedIsSafe(leaks: string -> bool, known: set<string>, redact: bool, steps: seq<StepRecord>, plan: seq<string>)
    requires !leaks(REDACTION)
    ensures SafelyShown(leaks, known, redact, steps, PublicSteps(leaks, known, redact, steps))
    ensures SafePlan(leaks, plan, PublicPlan(leaks, plan))
  {
    hide SanitizedArgs, SafeArgs, SameNames, DistinctArgs;
    forall i | 0 <= i < |steps|
      ensures var shown := PublicSteps(leaks, known, redact, steps)[i];
              SafeStep(leaks, known, redact, shown) && ShowsStep(leaks, known, redact, steps[i], shown)
    {
      if steps[i].args.Some? {
        ArgsAreSafe(leaks, steps[i].args.value);
      }
    }
  }
}
