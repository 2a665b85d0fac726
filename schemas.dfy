/**
 * The three zod object schemas as issue producers.  `SchemaIssues` lists the
 * issues `safeParse` reports, field by field in schema order, each tagged with
 * its top-level field; the declarative predicates `ClientRowValid`,
 * `WorkerRowValid` and `TaskRowValid` state what an accepted row looks like,
 * and the `...SchemaIff` lemmas tie the two together.
 */
module Schemas {
  import opened Js

  /** One zod issue, reduced to the first element of its path and its message. */
  datatype Issue = Issue(field: string, message: string)

  /** zod's `getParsedType`, which names the received type in invalid-type issues. */
  function ZodTypeOf(v: Value): ZodType
  {
    match v
    case Str(_) => ZString
    case Num(n) => if n.NaN? then ZNaN else ZNumber
    case Bool(_) => ZBoolean
    case Null => ZNull
    case Undef => ZUndefined
    case Arr(_) => ZArray
    case Obj => ZObject
  }

  /** `z.string().min(1, tooShort)`; without a custom message zod's default wording is used. */
  function StringIssues(h: Host, field: string, v: Value, tooShort: Option<string>): seq<Issue>
  {
    match v
    case Str(s) =>
      if |s| < 1 then [Issue(field, if tooShort.Some? then tooShort.value else h.zodMessage(StringTooShort(1)))]
      else []
    case _ => [Issue(field, h.zodMessage(InvalidType(ZString, ZodTypeOf(v))))]
  }

  /** The refinements chained on `z.number()`, run in declaration order. */
  datatype NumberCheck = IntCheck | MinCheck(bound: int) | MaxCheck(bound: int)

  /** `z.number()` followed by `checks`: NaN and non-numbers fail the type test and skip the checks. */
  function NumberIssues(h: Host, field: string, v: Value, checks: seq<NumberCheck>): seq<Issue>
  {
    if v.Num? && !v.n.NaN? then CheckIssues(h, field, v.n, checks)
    else [Issue(field, h.zodMessage(InvalidType(ZNumber, ZodTypeOf(v))))]
  }

  function CheckIssues(h: Host, field: string, n: JsNumber, checks: seq<NumberCheck>): seq<Issue>
  {
    if checks == [] then []
    else
      var first := match checks[0]
        case IntCheck => if IsInteger(n) then [] else [Issue(field, h.zodMessage(NotInteger))]
        case MinCheck(b) => if Below(n, b as real) then [Issue(field, h.zodMessage(NumberTooSmall(b)))] else []
        case MaxCheck(b) => if Above(n, b as real) then [Issue(field, h.zodMessage(NumberTooBig(b)))] else [];
      first + CheckIssues(h, field, n, checks[1..])
  }

  /** The element schemas used inside `z.array(...)`. */
  datatype ElementSchema = NonEmptyStrings | PositiveInts

  function ElementIssues(h: Host, field: string, el: ElementSchema, x: Value): seq<Issue>
  {
    match el
    case NonEmptyStrings => StringIssues(h, field, x, None)
    case PositiveInts => NumberIssues(h, field, x, [IntCheck, MinCheck(1)])
  }

  function ElementsIssues(h: Host, field: string, el: ElementSchema, xs: seq<Value>): seq<Issue>
  {
    if xs == [] then [] else ElementIssues(h, field, el, xs[0]) + ElementsIssues(h, field, el, xs[1..])
  }

  /** `z.array(el).nonempty(emptyMessage)`: a non-array fails the type test; otherwise the length check, then each element. */
  function ArrayIssues(h: Host, field: string, v: Value, el: ElementSchema, emptyMessage: string): seq<Issue>
  {
    match v
    case Arr(xs) => (if |xs| == 0 then [Issue(field, emptyMessage)] else []) + ElementsIssues(h, field, el, xs)
    case _ => [Issue(field, h.zodMessage(InvalidType(ZArray, ZodTypeOf(v))))]
  }

  /** `z.string().refine(JSON.parse succeeds, "Invalid JSON")`; the refinement runs only on strings. */
  function JsonStringIssues(h: Host, field: string, v: Value): seq<Issue>
  {
    match v
    case Str(s) => if h.jsonParses(s) then [] else [Issue(field, "Invalid JSON")]
    case _ => [Issue(field, h.zodMessage(InvalidType(ZString, ZodTypeOf(v))))]
  }

  /** One declared key of a `z.object` shape and the schema of its value. */
  datatype FieldSchema =
    | StringField(name: string, tooShort: Option<string>)
    | NumberField(name: string, checks: seq<NumberCheck>)
    | ArrayField(name: string, element: ElementSchema, emptyMessage: string)
    | JsonStringField(name: string)

  function FieldIssues(h: Host, f: FieldSchema, v: Value): seq<Issue>
  {
    match f
    case StringField(name, tooShort) => StringIssues(h, name, v, tooShort)
    case NumberField(name, checks) => NumberIssues(h, name, v, checks)
    case ArrayField(name, el, emptyMessage) => ArrayIssues(h, name, v, el, emptyMessage)
    case JsonStringField(name) => JsonStringIssues(h, name, v)
  }

  /** `z.object(shape).safeParse(row)` issues: each declared key in order; undeclared keys are not looked at. */
  function ObjectIssues(h: Host, shape: seq<FieldSchema>, row: Row): seq<Issue>
  {
    if shape == [] then []
    else FieldIssues(h, shape[0], Get(row, shape[0].name)) + ObjectIssues(h, shape[1..], row)
  }

  /** The keys a shape declares. */
  function ShapeFields(shape: seq<FieldSchema>): set<string>
  {
    set i | 0 <= i < |shape| :: shape[i].name
  }

  /** `clientSchema`. */
  const ClientShape: seq<FieldSchema> := [
    StringField("ClientID", Some("ClientID is required")),
    StringField("ClientName", Some("ClientName is required")),
    NumberField("PriorityLevel", [MinCheck(1), MaxCheck(5)]),
    ArrayField("RequestedTaskIDs", NonEmptyStrings, "At least one TaskID is required"),
    StringField("GroupTag", Some("GroupTag is required")),
    JsonStringField("AttributesJSON")
  ]

  /** `workerSchema`. */
  const WorkerShape: seq<FieldSchema> := [
    StringField("WorkerID", None),
    StringField("WorkerName", None),
    ArrayField("Skills", NonEmptyStrings, "At least one skill is required"),
    ArrayField("AvailableSlots", PositiveInts, "At least one slot is required"),
    NumberField("MaxLoadPerPhase", [MinCheck(1)]),
    StringField("WorkerGroup", None),
    NumberField("QualificationLevel", [MinCheck(1)])
  ]

  /** `taskSchema`. */
  const TaskShape: seq<FieldSchema> := [
    StringField("TaskID", None),
    StringField("TaskName", None),
    StringField("Category", None),
    NumberField("Duration", [MinCheck(1)]),
    ArrayField("RequiredSkills", NonEmptyStrings, "At least one skill is required"),
    ArrayField("PreferredPhases", PositiveInts, "At least one preferred phase required"),
    NumberField("MaxConcurrent", [MinCheck(1)])
  ]

  // ---------------------------------------------------------------------------
  // What an accepted row looks like, stated field by field.

  predicate NonEmptyString(v: Value)
  {
    v.Str? && |v.s| >= 1
  }

  /** A number (not NaN) in [lo, hi]; the infinities are outside every finite range. */
  predicate NumberInRange(v: Value, lo: real, hi: real)
  {
    v.Num? && v.n.Finite? && lo <= v.n.r <= hi
  }

  /** A number (not NaN) that is at least `lo`; +Infinity qualifies. */
  predicate NumberAtLeast(v: Value, lo: real)
  {
    v.Num? && ((v.n.Finite? && v.n.r >= lo) || v.n.PosInf?)
  }

  predicate IntegerAtLeast(v: Value, lo: real)
  {
    v.Num? && IsInteger(v.n) && v.n.r >= lo
  }

  predicate NonEmptyStringArray(v: Value)
  {
    v.Arr? && |v.elems| > 0 && forall i :: 0 <= i < |v.elems| ==> NonEmptyString(v.elems[i])
  }

  predicate PositiveIntArray(v: Value)
  {
    v.Arr? && |v.elems| > 0 && forall i :: 0 <= i < |v.elems| ==> IntegerAtLeast(v.elems[i], 1.0)
  }

  predicate JsonString(h: Host, v: Value)
  {
    v.Str? && h.jsonParses(v.s)
  }

  predicate ClientRowValid(h: Host, row: Row)
  {
    && NonEmptyString(Get(row, "ClientID"))
    && NonEmptyString(Get(row, "ClientName"))
    && NumberInRange(Get(row, "PriorityLevel"), 1.0, 5.0)
    && NonEmptyStringArray(Get(row, "RequestedTaskIDs"))
    && NonEmptyString(Get(row, "GroupTag"))
    && JsonString(h, Get(row, "AttributesJSON"))
  }

  predicate WorkerRowValid(row: Row)
  {
    && NonEmptyString(Get(row, "WorkerID"))
    && NonEmptyString(Get(row, "WorkerName"))
    && NonEmptyStringArray(Get(row, "Skills"))
    && PositiveIntArray(Get(row, "AvailableSlots"))
    && NumberAtLeast(Get(row, "MaxLoadPerPhase"), 1.0)
    && NonEmptyString(Get(row, "WorkerGroup"))
    && NumberAtLeast(Get(row, "QualificationLevel"), 1.0)
  }

  predicate TaskRowValid(row: Row)
  {
    && NonEmptyString(Get(row, "TaskID"))
    && NonEmptyString(Get(row, "TaskName"))
    && NonEmptyString(Get(row, "Category"))
    && NumberAtLeast(Get(row, "Duration"), 1.0)
    && NonEmptyStringArray(Get(row, "RequiredSkills"))
    && PositiveIntArray(Get(row, "PreferredPhases"))
    && NumberAtLeast(Get(row, "MaxConcurrent"), 1.0)
  }

  // ---------------------------------------------------------------------------
  // The issue producers agree with the declarative predicates.

  lemma StringIff(h: Host, field: string, v: Value, tooShort: Option<string>)
    ensures StringIssues(h, field, v, tooShort) == [] <==> NonEmptyString(v)
  {
  }

  lemma RangeIff(h: Host, field: string, v: Value)
    ensures NumberIssues(h, field, v, [MinCheck(1), MaxCheck(5)]) == [] <==> NumberInRange(v, 1.0, 5.0)
  {
    if v.Num? && !v.n.NaN? {
      var checks := [MinCheck(1), MaxCheck(5)];
      assert checks[1..] == [MaxCheck(5)] && checks[1..][1..] == [];
      assert CheckIssues(h, field, v.n, checks[1..])
          == if Above(v.n, 5.0) then [Issue(field, h.zodMessage(NumberTooBig(5)))] else [];
      assert CheckIssues(h, field, v.n, checks)
          == (if Below(v.n, 1.0) then [Issue(field, h.zodMessage(NumberTooSmall(1)))] else [])
           + (if Above(v.n, 5.0) then [Issue(field, h.zodMessage(NumberTooBig(5)))] else []);
    }
  }

  lemma AtLeastIff(h: Host, field: string, v: Value)
    ensures NumberIssues(h, field, v, [MinCheck(1)]) == [] <==> NumberAtLeast(v, 1.0)
  {
    if v.Num? && !v.n.NaN? {
      var checks := [MinCheck(1)];
      assert checks[1..] == [];
      assert CheckIssues(h, field, v.n, checks)
          == if Below(v.n, 1.0) then [Issue(field, h.zodMessage(NumberTooSmall(1)))] else [];
    }
  }

  lemma PositiveIntIff(h: Host, field: string, v: Value)
    ensures ElementIssues(h, field, PositiveInts, v) == [] <==> IntegerAtLeast(v, 1.0)
  {
    if v.Num? && !v.n.NaN? {
      var checks := [IntCheck, MinCheck(1)];
      assert checks[1..] == [MinCheck(1)] && checks[1..][1..] == [];
      assert CheckIssues(h, field, v.n, checks[1..])
          == if Below(v.n, 1.0) then [Issue(field, h.zodMessage(NumberTooSmall(1)))] else [];
      assert CheckIssues(h, field, v.n, checks)
          == (if IsInteger(v.n) then [] else [Issue(field, h.zodMessage(NotInteger))])
           + (if Below(v.n, 1.0) then [Issue(field, h.zodMessage(NumberTooSmall(1)))] else []);
    }
  }

  lemma {:induction false} ElementsIff(h: Host, field: string, el: ElementSchema, xs: seq<Value>)
    ensures ElementsIssues(h, field, el, xs) == []
        <==> forall i :: 0 <= i < |xs| ==> ElementIssues(h, field, el, xs[i]) == []
  {
    if xs != [] {
      ElementsIff(h, field, el, xs[1..]);
      assert forall i :: 1 <= i < |xs| ==> xs[i] == xs[1..][i - 1];
    }
  }

  lemma StringArrayIff(h: Host, field: string, v: Value, emptyMessage: string)
    ensures ArrayIssues(h, field, v, NonEmptyStrings, emptyMessage) == [] <==> NonEmptyStringArray(v)
  {
    if v.Arr? {
      ElementsIff(h, field, NonEmptyStrings, v.elems);
      forall i | 0 <= i < |v.elems| {
        StringIff(h, field, v.elems[i], None);
      }
    }
  }

  lemma PositiveIntArrayIff(h: Host, field: string, v: Value, emptyMessage: string)
    ensures ArrayIssues(h, field, v, PositiveInts, emptyMessage) == [] <==> PositiveIntArray(v)
  {
    if v.Arr? {
      ElementsIff(h, field, PositiveInts, v.elems);
      forall i | 0 <= i < |v.elems| {
        PositiveIntIff(h, field, v.elems[i]);
      }
    }
  }

  /** An object parses exactly when each declared key's value parses. */
  lemma {:induction false} ObjectIssuesEmptyIff(h: Host, shape: seq<FieldSchema>, row: Row)
    ensures ObjectIssues(h, shape, row) == []
        <==> forall i :: 0 <= i < |shape| ==> FieldIssues(h, shape[i], Get(row, shape[i].name)) == []
  {
    if shape != [] {
      ObjectIssuesEmptyIff(h, shape[1..], row);
      assert forall i :: 1 <= i < |shape| ==> shape[i] == shape[1..][i - 1];
    }
  }

  /** A client row is accepted exactly when every field of the client schema holds. */
  lemma ClientSchemaIff(h: Host, row: Row)
    ensures ObjectIssues(h, ClientShape, row) == [] <==> ClientRowValid(h, row)
  {
    ObjectIssuesEmptyIff(h, ClientShape, row);
    StringIff(h, "ClientID", Get(row, "ClientID"), Some("ClientID is required"));
    StringIff(h, "ClientName", Get(row, "ClientName"), Some("ClientName is required"));
    RangeIff(h, "PriorityLevel", Get(row, "PriorityLevel"));
    StringArrayIff(h, "RequestedTaskIDs", Get(row, "RequestedTaskIDs"), "At least one TaskID is required");
    StringIff(h, "GroupTag", Get(row, "GroupTag"), Some("GroupTag is required"));
    if ClientRowValid(h, row) {
      forall i | 0 <= i < |ClientShape| ensures FieldIssues(h, ClientShape[i], Get(row, ClientShape[i].name)) == [] {
        if i == 0 {} else if i == 1 {} else if i == 2 {} else if i == 3 {} else if i == 4 {} else {}
      }
    } else {
      var bad := if !NonEmptyString(Get(row, "ClientID")) then 0
                 else if !NonEmptyString(Get(row, "ClientName")) then 1
                 else if !NumberInRange(Get(row, "PriorityLevel"), 1.0, 5.0) then 2
                 else if !NonEmptyStringArray(Get(row, "RequestedTaskIDs")) then 3
                 else if !NonEmptyString(Get(row, "GroupTag")) then 4
                 else 5;
      assert FieldIssues(h, ClientShape[bad], Get(row, ClientShape[bad].name)) != [];
    }
  }

  /** A worker row is accepted exactly when every field of the worker schema holds. */
  lemma WorkerSchemaIff(h: Host, row: Row)
    ensures ObjectIssues(h, WorkerShape, row) == [] <==> WorkerRowValid(row)
  {
    ObjectIssuesEmptyIff(h, WorkerShape, row);
    StringIff(h, "WorkerID", Get(row, "WorkerID"), None);
    StringIff(h, "WorkerName", Get(row, "WorkerName"), None);
    StringArrayIff(h, "Skills", Get(row, "Skills"), "At least one skill is required");
    PositiveIntArrayIff(h, "AvailableSlots", Get(row, "AvailableSlots"), "At least one slot is required");
    AtLeastIff(h, "MaxLoadPerPhase", Get(row, "MaxLoadPerPhase"));
    StringIff(h, "WorkerGroup", Get(row, "WorkerGroup"), None);
    AtLeastIff(h, "QualificationLevel", Get(row, "QualificationLevel"));
    if WorkerRowValid(row) {
      forall i | 0 <= i < |WorkerShape| ensures FieldIssues(h, WorkerShape[i], Get(row, WorkerShape[i].name)) == [] {
        if i == 0 {} else if i == 1 {} else if i == 2 {} else if i == 3 {} else if i == 4 {} else if i == 5 {} else {}
      }
    } else {
      var bad := if !NonEmptyString(Get(row, "WorkerID")) then 0
                 else if !NonEmptyString(Get(row, "WorkerName")) then 1
                 else if !NonEmptyStringArray(Get(row, "Skills")) then 2
                 else if !PositiveIntArray(Get(row, "AvailableSlots")) then 3
                 else if !NumberAtLeast(Get(row, "MaxLoadPerPhase"), 1.0) then 4
                 else if !NonEmptyString(Get(row, "WorkerGroup")) then 5
                 else 6;
      assert FieldIssues(h, WorkerShape[bad], Get(row, WorkerShape[bad].name)) != [];
    }
  }

  /** A task row is accepted exactly when every field of the task schema holds. */
  lemma TaskSchemaIff(h: Host, row: Row)
    ensures ObjectIssues(h, TaskShape, row) == [] <==> TaskRowValid(row)
  {
    ObjectIssuesEmptyIff(h, TaskShape, row);
    StringIff(h, "TaskID", Get(row, "TaskID"), None);
    StringIff(h, "TaskName", Get(row, "TaskName"), None);
    StringIff(h, "Category", Get(row, "Category"), None);
    AtLeastIff(h, "Duration", Get(row, "Duration"));
    StringArrayIff(h, "RequiredSkills", Get(row, "RequiredSkills"), "At least one skill is required");
    PositiveIntArrayIff(h, "PreferredPhases", Get(row, "PreferredPhases"), "At least one preferred phase required");
    AtLeastIff(h, "MaxConcurrent", Get(row, "MaxConcurrent"));
    if TaskRowValid(row) {
      forall i | 0 <= i < |TaskShape| ensures FieldIssues(h, TaskShape[i], Get(row, TaskShape[i].name)) == [] {
        if i == 0 {} else if i == 1 {} else if i == 2 {} else if i == 3 {} else if i == 4 {} else if i == 5 {} else {}
      }
    } else {
      var bad := if !NonEmptyString(Get(row, "TaskID")) then 0
                 else if !NonEmptyString(Get(row, "TaskName")) then 1
                 else if !NonEmptyString(Get(row, "Category")) then 2
                 else if !NumberAtLeast(Get(row, "Duration"), 1.0) then 3
                 else if !NonEmptyStringArray(Get(row, "RequiredSkills")) then 4
                 else if !PositiveIntArray(Get(row, "PreferredPhases")) then 5
                 else 6;
      assert FieldIssues(h, TaskShape[bad], Get(row, TaskShape[bad].name)) != [];
    }
  }

  // ---------------------------------------------------------------------------
  // Consequences the schemas' shape implies.

  /** PriorityLevel has no integer requirement: 2.5 passes the range check. */
  lemma FractionalPriorityAccepted(h: Host)
    ensures NumberIssues(h, "PriorityLevel", Num(Finite(2.5)), [MinCheck(1), MaxCheck(5)]) == []
  {
    RangeIff(h, "PriorityLevel", Num(Finite(2.5)));
  }

  /** Slot and phase lists have no upper bound: any integer from 1 up, such as 7, is accepted. */
  lemma LargePhaseAccepted(h: Host, field: string, k: int)
    requires k >= 1
    ensures ElementIssues(h, field, PositiveInts, Num(Finite(k as real))) == []
  {
    PositiveIntIff(h, field, Num(Finite(k as real)));
  }

  /** The NaN that normalising a non-numeric cell leaves behind fails every numeric field. */
  lemma NaNRejected(h: Host, field: string, checks: seq<NumberCheck>)
    ensures NumberIssues(h, field, Num(NaN), checks) != []
  {
  }

  /** A list field holding a plain string, such as an unsplit CSV cell, fails. */
  lemma StringInArrayFieldRejected(h: Host, field: string, s: string, el: ElementSchema, emptyMessage: string)
    ensures ArrayIssues(h, field, Str(s), el, emptyMessage) != []
  {
  }

  /** Every issue a field raises is reported under that field's own name, never under an element path. */
  lemma FieldIssuesField(h: Host, f: FieldSchema, v: Value)
    ensures forall i :: 0 <= i < |FieldIssues(h, f, v)| ==> FieldIssues(h, f, v)[i].field == f.name
  {
    match f
    case NumberField(name, checks) =>
      if v.Num? && !v.n.NaN? {
        CheckIssuesField(h, name, v.n, checks);
      }
    case ArrayField(name, el, emptyMessage) =>
      if v.Arr? {
        ElementsIssuesField(h, name, el, v.elems);
      }
    case StringField(_, _) =>
    case JsonStringField(_) =>
  }

  /** Every issue of an object names one of its declared keys: undeclared keys never produce an error. */
  lemma {:induction false} ObjectIssuesFields(h: Host, shape: seq<FieldSchema>, row: Row)
    ensures forall i :: 0 <= i < |ObjectIssues(h, shape, row)| ==> ObjectIssues(h, shape, row)[i].field in ShapeFields(shape)
  {
    if shape != [] {
      ObjectIssuesFields(h, shape[1..], row);
      FieldIssuesField(h, shape[0], Get(row, shape[0].name));
      assert shape[0].name in ShapeFields(shape);
      assert forall k :: k in ShapeFields(shape[1..]) ==> k in ShapeFields(shape) by {
        forall k | k in ShapeFields(shape[1..]) ensures k in ShapeFields(shape) {
          var j :| 0 <= j < |shape[1..]| && shape[1..][j].name == k;
          assert shape[j + 1].name == k;
        }
      }
    }
  }

  /** The issues of an object depend only on the values of its declared keys. */
  lemma {:induction false} ObjectIssuesDeclaredOnly(h: Host, shape: seq<FieldSchema>, a: Row, b: Row)
    requires forall k :: k in ShapeFields(shape) ==> Get(a, k) == Get(b, k)
    ensures ObjectIssues(h, shape, a) == ObjectIssues(h, shape, b)
  {
    if shape != [] {
      assert shape[0].name in ShapeFields(shape);
      forall k | k in ShapeFields(shape[1..]) ensures Get(a, k) == Get(b, k) {
        var j :| 0 <= j < |shape[1..]| && shape[1..][j].name == k;
        assert shape[j + 1].name == k;
      }
      ObjectIssuesDeclaredOnly(h, shape[1..], a, b);
    }
  }

  lemma {:induction false} ElementsIssuesField(h: Host, field: string, el: ElementSchema, xs: seq<Value>)
    ensures forall i :: 0 <= i < |ElementsIssues(h, field, el, xs)| ==> ElementsIssues(h, field, el, xs)[i].field == field
  {
    if xs != [] {
      ElementsIssuesField(h, field, el, xs[1..]);
      if el.PositiveInts? && xs[0].Num? && !xs[0].n.NaN? {
        CheckIssuesField(h, field, xs[0].n, [IntCheck, MinCheck(1)]);
      }
    }
  }

  lemma {:induction false} CheckIssuesField(h: Host, field: string, n: JsNumber, checks: seq<NumberCheck>)
    ensures forall i :: 0 <= i < |CheckIssues(h, field, n, checks)| ==> CheckIssues(h, field, n, checks)[i].field == field
  {
    if checks != [] {
      CheckIssuesField(h, field, n, checks[1..]);
    }
  }
}
