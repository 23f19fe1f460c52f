/** The copy of a JSON schema without the keywords Claude rejects (internal/claude/schema.go),
    and what a schema means: validation as in JSON Schema 2020-12, for the keywords below.
 */
module SchemaStrip {

  datatype Scalar = Text(text: string) | Number(number: real) | Bool(b: bool) | Null

  /** A JSON value that remembers the order of its object keys; a schema is one too. */
  datatype Node =
    | Obj(fields: seq<(string, Node)>)
    | Arr(items: seq<Node>)
    | Leaf(scalar: Scalar)

  // ----- The transformation -----

  const PROPERTIES := "properties"

  const UNSUPPORTED := {
    "minimum", "maximum", "exclusiveMinimum", "exclusiveMaximum",
    "multipleOf", "minLength", "maxLength", "maxItems"
  }

  predicate Unsupported(key: string) {
    key in UNSUPPORTED
  }

  function Strip(n: Node): Node {
    match n
    case Arr(items) => Arr(StripItems(items))
    case Obj(fields) => Obj(StripFields(fields))
    case Leaf(_) => n
  }

  function StripItems(items: seq<Node>): seq<Node> {
    if items == [] then [] else [Strip(items[0])] + StripItems(items[1..])
  }

  /** The names of properties are kept whatever they are. */
  function StripProperties(props: seq<(string, Node)>): seq<(string, Node)> {
    if props == [] then [] else [StripProperty(props[0])] + StripProperties(props[1..])
  }

  function StripProperty(prop: (string, Node)): (string, Node) {
    (prop.0, Strip(prop.1))
  }

  predicate IsProperties(field: (string, Node)) {
    field.0 == PROPERTIES && field.1.Obj?
  }

  predicate Kept(field: (string, Node)) {
    IsProperties(field) || !Unsupported(field.0)
  }

  function StripField(field: (string, Node)): (string, Node) {
    if IsProperties(field) then (field.0, Obj(StripProperties(field.1.fields))) else (field.0, Strip(field.1))
  }

  function StripFields(fields: seq<(string, Node)>): seq<(string, Node)> {
    if fields == [] then []
    else (if Kept(fields[0]) then [StripField(fields[0])] else []) + StripFields(fields[1..])
  }

  /** strip as it runs: each list is built up by appending. */
  method StripNode(n: Node) returns (out: Node)
    ensures out == Strip(n)
    decreases n
  {
    hide Strip, StripItems, StripFields, StripProperties, Unsupported;
    SameShape(n);
    match n
    case Arr(vals) =>
      var items: seq<Node> := [];
      var i := 0;
      while i < |vals|
        invariant 0 <= i <= |vals|
        invariant items + StripItems(vals[i..]) == StripItems(vals)
      {
        NextItem(vals, i);
        var item := StripNode(vals[i]);
        items := items + [item];
        i := i + 1;
      }
      assert vals[i..] == [];
      NothingLeft();
      return Arr(items);
    case Obj(members) =>
      var fields: seq<(string, Node)> := [];
      var i := 0;
      while i < |members|
        invariant 0 <= i <= |members|
        invariant fields + StripFields(members[i..]) == StripFields(members)
      {
        NextField(members, i);
        var (key, val) := members[i];
        if key == PROPERTIES && val.Obj? {
          var props: seq<(string, Node)> := [];
          var j := 0;
          while j < |val.fields|
            invariant 0 <= j <= |val.fields|
            invariant props + StripProperties(val.fields[j..]) == StripProperties(val.fields)
          {
            NextProperty(val.fields, j);
            var (name, sub) := val.fields[j];
            var prop := StripNode(sub);
            props := props + [(name, prop)];
            j := j + 1;
          }
          assert val.fields[j..] == [];
          NothingLeft();
          assert props == StripProperties(val.fields) && IsProperties(members[i]);
          assert StripField(members[i]) == (key, Obj(props));
          fields := fields + [(key, Obj(props))];
        } else if !Unsupported(key) {
          var kept := StripNode(val);
          assert StripField(members[i]) == (key, kept);
          fields := fields + [(key, kept)];
        }
        i := i + 1;
      }
      assert members[i..] == [];
      NothingLeft();
      return Obj(fields);
    case Leaf(_) =>
      return n;
  }

  lemma NextItem(items: seq<Node>, i: nat)
    requires i < |items|
    ensures StripItems(items[i..]) == [Strip(items[i])] + StripItems(items[i + 1..])
  {
    assert items[i..][1..] == items[i + 1..];
  }

  lemma NextProperty(props: seq<(string, Node)>, i: nat)
    requires i < |props|
    ensures StripProperties(props[i..]) == [(props[i].0, Strip(props[i].1))] + StripProperties(props[i + 1..])
  {
    assert props[i..][1..] == props[i + 1..];
  }

  lemma NextField(fields: seq<(string, Node)>, i: nat)
    requires i < |fields|
    ensures StripFields(fields[i..]) ==
              (if Kept(fields[i]) then [StripField(fields[i])] else []) + StripFields(fields[i + 1..])
  {
    assert fields[i..][1..] == fields[i + 1..];
  }

  lemma NothingLeft()
    ensures StripItems([]) == [] && StripFields([]) == [] && StripProperties([]) == []
  {
  }

  lemma SameShape(n: Node)
    ensures match n
            case Arr(items) => Strip(n) == Arr(StripItems(items))
            case Obj(fields) => Strip(n) == Obj(StripFields(fields))
            case Leaf(_) => Strip(n) == n
  {
  }

  // ----- What a schema means -----

  datatype Bound =
    | Minimum | Maximum | ExclusiveMinimum | ExclusiveMaximum | MultipleOf
    | MinLength | MaxLength | MaxItems

  datatype Keyword =
    | Type | Enum | Const | Properties | Required | AdditionalProperties | Items
    | AllOf | AnyOf | OneOf | Not
    | Limit(bound: Bound)
    | Annotation

  function KeywordOf(key: string): Keyword {
    if key == "type" then Type
    else if key == "enum" then Enum
    else if key == "const" then Const
    else if key == "properties" then Properties
    else if key == "required" then Required
    else if key == "additionalProperties" then AdditionalProperties
    else if key == "items" then Items
    else if key == "allOf" then AllOf
    else if key == "anyOf" then AnyOf
    else if key == "oneOf" then OneOf
    else if key == "not" then Not
    else if key == "minimum" then Limit(Minimum)
    else if key == "maximum" then Limit(Maximum)
    else if key == "exclusiveMinimum" then Limit(ExclusiveMinimum)
    else if key == "exclusiveMaximum" then Limit(ExclusiveMaximum)
    else if key == "multipleOf" then Limit(MultipleOf)
    else if key == "minLength" then Limit(MinLength)
    else if key == "maxLength" then Limit(MaxLength)
    else if key == "maxItems" then Limit(MaxItems)
    else Annotation
  }

  predicate HasType(name: string, value: Node) {
    match value
    case Obj(_) => name == "object"
    case Arr(_) => name == "array"
    case Leaf(Text(_)) => name == "string"
    case Leaf(Number(r)) => name == "number" || (name == "integer" && r.Floor as real == r)
    case Leaf(Bool(_)) => name == "boolean"
    case Leaf(Null) => name == "null"
  }

  predicate TypeHolds(v: Node, value: Node) {
    match v
    case Leaf(Text(name)) => HasType(name, value)
    case Arr(names) =>
      exists i :: 0 <= i < |names| && names[i].Leaf? && names[i].scalar.Text? && HasType(names[i].scalar.text, value)
    case _ => false
  }

  predicate RequiredHolds(v: Node, value: Node) {
    v.Arr? && value.Obj? ==>
      forall i :: 0 <= i < |v.items| && v.items[i].Leaf? && v.items[i].scalar.Text? ==>
        exists j :: 0 <= j < |value.fields| && value.fields[j].0 == v.items[i].scalar.text
  }

  predicate LimitHolds(b: Bound, limit: real, value: Node) {
    match value
    case Leaf(Number(r)) =>
      (match b
       case Minimum => r >= limit
       case Maximum => r <= limit
       case ExclusiveMinimum => r > limit
       case ExclusiveMaximum => r < limit
       case MultipleOf => limit > 0.0 ==> (r / limit).Floor as real * limit == r
       case _ => true)
    case Leaf(Text(s)) =>
      (match b
       case MinLength => |s| as real >= limit
       case MaxLength => |s| as real <= limit
       case _ => true)
    case Arr(items) => b == MaxItems ==> |items| as real <= limit
    case _ => true
  }

  /** The names a schema lists under "properties". */
  function PropertyNames(fields: seq<(string, Node)>): set<string> {
    if fields == [] then {}
    else (if IsProperties(fields[0]) then Names(fields[0].1.fields) else {}) + PropertyNames(fields[1..])
  }

  function Names(fields: seq<(string, Node)>): set<string> {
    if fields == [] then {} else {fields[0].0} + Names(fields[1..])
  }

  /** The value satisfies the schema. */
  predicate Valid(schema: Node, value: Node) {
    match schema
    case Leaf(Bool(b)) => b
    case Obj(fields) => AllHold(fields, PropertyNames(fields), value)
    case _ => false
  }

  predicate AllHold(fields: seq<(string, Node)>, names: set<string>, value: Node) {
    fields == [] || (Holds(fields[0], names, value) && AllHold(fields[1..], names, value))
  }

  predicate Holds(field: (string, Node), names: set<string>, value: Node) {
    var v := field.1;
    match KeywordOf(field.0)
    case Type => TypeHolds(v, value)
    case Enum => v.Arr? ==> value in v.items
    case Const => value == v
    case Properties => v.Obj? && value.Obj? ==> PropertiesHold(v.fields, value.fields)
    case Required => RequiredHolds(v, value)
    case AdditionalProperties =>
      value.Obj? ==>
        forall j :: 0 <= j < |value.fields| && value.fields[j].0 !in names ==> Valid(v, value.fields[j].1)
    case Items => value.Arr? ==> forall j :: 0 <= j < |value.items| ==> Valid(v, value.items[j])
    case AllOf => v.Arr? ==> AllValid(v.items, value)
    case AnyOf => v.Arr? ==> AnyValid(v.items, value)
    case OneOf => v.Arr? ==> CountValid(v.items, value) == 1
    case Not => !Valid(v, value)
    case Limit(b) => v.Leaf? && v.scalar.Number? ==> LimitHolds(b, v.scalar.number, value)
    case Annotation => true
  }

  predicate PropertiesHold(props: seq<(string, Node)>, members: seq<(string, Node)>) {
    props == [] || (PropertyHolds(props[0], members) && PropertiesHold(props[1..], members))
  }

  predicate PropertyHolds(prop: (string, Node), members: seq<(string, Node)>) {
    forall j :: 0 <= j < |members| && members[j].0 == prop.0 ==> Valid(prop.1, members[j].1)
  }

  predicate AllValid(schemas: seq<Node>, value: Node) {
    schemas == [] || (Valid(schemas[0], value) && AllValid(schemas[1..], value))
  }

  predicate AnyValid(schemas: seq<Node>, value: Node) {
    schemas != [] && (Valid(schemas[0], value) || AnyValid(schemas[1..], value))
  }

  function CountValid(schemas: seq<Node>, value: Node): nat {
    if schemas == [] then 0 else (if Valid(schemas[0], value) then 1 else 0) + CountValid(schemas[1..], value)
  }

  // ----- Stripping only weakens -----

  /** When dropping the bounds moves what a schema accepts one way only. grows: it may accept
      more, and under a "not" it must not. There a bound must not bind; the schemas of a
      "oneOf" must mean the same, and the values of "enum" and "const" must be left alone. */
  predicate Safe(schema: Node, grows: bool) {
    schema.Obj? ==> SafeFields(schema.fields, grows)
  }

  predicate SafeFields(fields: seq<(string, Node)>, grows: bool) {
    fields == [] || (SafeField(fields[0], grows) && SafeFields(fields[1..], grows))
  }

  predicate SafeField(field: (string, Node), grows: bool) {
    var v := field.1;
    match KeywordOf(field.0)
    case Enum => v.Arr? ==> Strip(v) == v
    case Const => Strip(v) == v
    case Not => Safe(v, !grows)
    case OneOf => v.Arr? ==> SafeItems(v.items, true) && SafeItems(v.items, false)
    case Properties => v.Obj? ==> SafeProperties(v.fields, grows)
    case AdditionalProperties | Items => Safe(v, grows)
    case AllOf | AnyOf => v.Arr? ==> SafeItems(v.items, grows)
    case Limit(_) => grows || !v.Leaf? || !v.scalar.Number?
    case _ => true
  }

  predicate SafeProperties(props: seq<(string, Node)>, grows: bool) {
    props == [] || (SafeProperty(props[0], grows) && SafeProperties(props[1..], grows))
  }

  predicate SafeProperty(prop: (string, Node), grows: bool) {
    Safe(prop.1, grows)
  }

  predicate SafeItems(items: seq<Node>, grows: bool) {
    items == [] || (Safe(items[0], grows) && SafeItems(items[1..], grows))
  }

  /** The keywords dropped are the bounds, all of them and no other. */
  lemma DroppedAreBounds(key: string)
    ensures Unsupported(key) <==> KeywordOf(key).Limit?
    ensures key == PROPERTIES <==> KeywordOf(key) == Properties
  {
  }

  lemma {:induction false} ItemsStripped(items: seq<Node>)
    ensures |StripItems(items)| == |items| && forall i :: 0 <= i < |items| ==> StripItems(items)[i] == Strip(items[i])
    decreases |items|
  {
    hide Strip;
    if items != [] {
      ItemsStripped(items[1..]);
      assert StripItems(items)[1..] == StripItems(items[1..]);
    }
  }

  lemma {:induction false} PropertiesStripped(props: seq<(string, Node)>)
    ensures |StripProperties(props)| == |props|
    ensures forall i :: 0 <= i < |props| ==> StripProperties(props)[i] == (props[i].0, Strip(props[i].1))
    ensures Names(StripProperties(props)) == Names(props)
    decreases |props|
  {
    hide Strip;
    if props != [] {
      PropertiesStripped(props[1..]);
      assert StripProperties(props)[1..] == StripProperties(props[1..]);
    }
  }

  lemma {:induction false} NamesKept(fields: seq<(string, Node)>)
    ensures PropertyNames(StripFields(fields)) == PropertyNames(fields)
    decreases |fields|
  {
    if fields != [] {
      NamesKept(fields[1..]);
      if Kept(fields[0]) {
        assert StripFields(fields)[1..] == StripFields(fields[1..]);
        if IsProperties(fields[0]) {
          PropertiesStripped(fields[0].1.fields);
        } else {
          SameShape(fields[0].1);
        }
      } else {
        assert StripFields(fields) == StripFields(fields[1..]);
      }
    }
  }

  lemma TypeKept(v: Node, value: Node)
    ensures TypeHolds(v, value) <==> TypeHolds(Strip(v), value)
  {
    hide HasType;
    if v.Arr? {
      ItemsStripped(v.items);
      forall i | 0 <= i < |v.items|
        ensures Strip(v.items[i]).Leaf? <==> v.items[i].Leaf?
        ensures v.items[i].Leaf? ==> Strip(v.items[i]) == v.items[i]
      {
        SameShape(v.items[i]);
      }
    }
  }

  lemma RequiredKept(v: Node, value: Node)
    ensures RequiredHolds(v, value) <==> RequiredHolds(Strip(v), value)
  {
    if v.Arr? {
      ItemsStripped(v.items);
      forall i | 0 <= i < |v.items|
        ensures Strip(v.items[i]).Leaf? <==> v.items[i].Leaf?
        ensures v.items[i].Leaf? ==> Strip(v.items[i]) == v.items[i]
      {
        SameShape(v.items[i]);
      }
    }
  }

  predicate Follows(before: bool, after: bool, grows: bool) {
    if grows then before ==> after else after ==> before
  }

  /** Every value valid against a schema is valid against its stripped copy. */
  lemma StripWeakens(schema: Node, value: Node)
    requires Safe(schema, true) && Valid(schema, value)
    ensures Valid(Strip(schema), value)
  {
    StripFollows(schema, value, true);
  }

  /** It means the same where both conditions hold. */
  lemma StripKeepsMeaning(schema: Node, value: Node)
    requires Safe(schema, true) && Safe(schema, false)
    ensures Valid(schema, value) <==> Valid(Strip(schema), value)
  {
    StripFollows(schema, value, true);
    StripFollows(schema, value, false);
  }

  lemma {:induction false} StripFollows(schema: Node, value: Node, grows: bool)
    requires Safe(schema, grows)
    ensures Follows(Valid(schema, value), Valid(Strip(schema), value), grows)
    decreases schema
  {
    if schema.Obj? {
      NamesKept(schema.fields);
      FieldsFollow(schema.fields, PropertyNames(schema.fields), value, grows);
    }
  }

  lemma {:induction false} FieldsFollow(fields: seq<(string, Node)>, names: set<string>, value: Node, grows: bool)
    requires SafeFields(fields, grows)
    ensures Follows(AllHold(fields, names, value), AllHold(StripFields(fields), names, value), grows)
    decreases fields
  {
    hide Holds, SafeField, Kept, StripField;
    if fields != [] {
      FieldsFollow(fields[1..], names, value, grows);
      if Kept(fields[0]) {
        FieldFollows(fields[0], names, value, grows);
        assert StripFields(fields)[1..] == StripFields(fields[1..]);
      } else {
        DroppedFollows(fields[0], names, value, grows);
        assert StripFields(fields) == StripFields(fields[1..]);
      }
    }
  }

  lemma DroppedFollows(field: (string, Node), names: set<string>, value: Node, grows: bool)
    requires SafeField(field, grows) && !Kept(field)
    ensures grows || Holds(field, names, value)
  {
    DroppedAreBounds(field.0);
  }

  lemma {:induction false} FieldFollows(field: (string, Node), names: set<string>, value: Node, grows: bool)
    requires SafeField(field, grows) && Kept(field)
    ensures Follows(Holds(field, names, value), Holds(StripField(field), names, value), grows)
    decreases field
  {
    hide KeywordOf, TypeHolds, RequiredHolds, LimitHolds, Strip, Valid, Safe;
    var v := field.1;
    DroppedAreBounds(field.0);
    SameShape(v);
    match KeywordOf(field.0)
    case Type => TypeKept(v, value);
    case Properties =>
      if v.Obj? && value.Obj? {
        PropertiesFollow(v.fields, value.fields, grows);
      }
    case Required => RequiredKept(v, value);
    case AdditionalProperties =>
      if value.Obj? {
        forall j | 0 <= j < |value.fields|
          ensures Follows(Valid(v, value.fields[j].1), Valid(Strip(v), value.fields[j].1), grows)
        {
          StripFollows(v, value.fields[j].1, grows);
        }
      }
    case Items =>
      if value.Arr? {
        forall j | 0 <= j < |value.items|
          ensures Follows(Valid(v, value.items[j]), Valid(Strip(v), value.items[j]), grows)
        {
          StripFollows(v, value.items[j], grows);
        }
      }
    case AllOf =>
      if v.Arr? {
        AllFollow(v.items, value, grows);
      }
    case AnyOf =>
      if v.Arr? {
        AnyFollows(v.items, value, grows);
      }
    case OneOf =>
      if v.Arr? {
        CountSame(v.items, value);
      }
    case Not => StripFollows(v, value, !grows);
    case _ =>
  }

  lemma {:induction false} PropertiesFollow(props: seq<(string, Node)>, members: seq<(string, Node)>, grows: bool)
    requires SafeProperties(props, grows)
    ensures Follows(PropertiesHold(props, members), PropertiesHold(StripProperties(props), members), grows)
    decreases props
  {
    hide PropertyHolds, StripProperty, SafeProperty;
    if props != [] {
      PropertiesFollow(props[1..], members, grows);
      assert StripProperties(props)[1..] == StripProperties(props[1..]);
      PropertyFollows(props[0], members, grows);
    }
  }

  lemma {:induction false} PropertyFollows(prop: (string, Node), members: seq<(string, Node)>, grows: bool)
    requires SafeProperty(prop, grows)
    ensures Follows(PropertyHolds(prop, members), PropertyHolds(StripProperty(prop), members), grows)
    decreases prop
  {
    hide Valid, Strip, Safe;
    forall j | 0 <= j < |members| && members[j].0 == prop.0
      ensures Follows(Valid(prop.1, members[j].1), Valid(Strip(prop.1), members[j].1), grows)
    {
      StripFollows(prop.1, members[j].1, grows);
    }
  }

  lemma {:induction false} AllFollow(schemas: seq<Node>, value: Node, grows: bool)
    requires SafeItems(schemas, grows)
    ensures Follows(AllValid(schemas, value), AllValid(StripItems(schemas), value), grows)
    decreases schemas
  {
    hide Valid, Strip, Safe;
    if schemas != [] {
      StripFollows(schemas[0], value, grows);
      AllFollow(schemas[1..], value, grows);
      assert StripItems(schemas)[1..] == StripItems(schemas[1..]);
    }
  }

  lemma {:induction false} AnyFollows(schemas: seq<Node>, value: Node, grows: bool)
    requires SafeItems(schemas, grows)
    ensures Follows(AnyValid(schemas, value), AnyValid(StripItems(schemas), value), grows)
    decreases schemas
  {
    hide Valid, Strip, Safe;
    if schemas != [] {
      StripFollows(schemas[0], value, grows);
      AnyFollows(schemas[1..], value, grows);
      assert StripItems(schemas)[1..] == StripItems(schemas[1..]);
    }
  }

  lemma {:induction false} CountSame(schemas: seq<Node>, value: Node)
    requires SafeItems(schemas, true) && SafeItems(schemas, false)
    ensures CountValid(schemas, value) == CountValid(StripItems(schemas), value)
    decreases schemas
  {
    hide Valid, Strip, Safe;
    if schemas != [] {
      StripFollows(schemas[0], value, true);
      StripFollows(schemas[0], value, false);
      CountSame(schemas[1..], value);
      assert StripItems(schemas)[1..] == StripItems(schemas[1..]);
    }
  }

  // ----- Where it does not -----

  function AtMost(limit: real): Node {
    Obj([("maximum", Leaf(Number(limit)))])
  }

  lemma AtMostStripped(limit: real, number: real)
    ensures Strip(AtMost(limit)) == Obj([])
    ensures Valid(AtMost(limit), Leaf(Number(number))) <==> number <= limit
  {
    var max := ("maximum", Leaf(Number(limit)));
    assert !Kept(max) && StripFields([max]) == [];
    assert AllHold([], PropertyNames([max]), Leaf(Number(number)));
    assert Holds(max, PropertyNames([max]), Leaf(Number(number))) <==> number <= limit;
  }

  /** Under "not" a stripped schema rejects what the original accepts. */
  lemma NotStrengthens()
    ensures var ten := Leaf(Number(10.0));
            var notSmall := Obj([("not", AtMost(3.0))]);
            Valid(notSmall, ten) && !Valid(Strip(notSmall), ten)
  {
    var ten, not := Leaf(Number(10.0)), ("not", AtMost(3.0));
    AtMostStripped(3.0, 10.0);
    assert Kept(not) && StripField(not) == ("not", Obj([]));
    assert StripFields([not]) == [("not", Obj([]))];
    assert Holds(not, PropertyNames([not]), ten);
    assert !Holds(("not", Obj([])), PropertyNames([("not", Obj([]))]), ten);
  }

  /** So does an "enum" of a value that is not a scalar. */
  lemma EnumStrengthens()
    ensures var value := Obj([("maximum", Leaf(Null))]);
            var one := Obj([("enum", Arr([value]))]);
            Valid(one, value) && !Valid(Strip(one), value)
  {
    var max := ("maximum", Leaf(Null));
    var value := Obj([max]);
    var enum := ("enum", Arr([value]));
    assert !Kept(max) && StripFields([max]) == [];
    assert StripItems([value]) == [Obj([])];
    assert Kept(enum) && StripField(enum) == ("enum", Arr([Obj([])]));
    assert StripFields([enum]) == [("enum", Arr([Obj([])]))];
    assert value in [value] && Holds(enum, PropertyNames([enum]), value);
    assert !Holds(("enum", Arr([Obj([])])), PropertyNames([("enum", Arr([Obj([])]))]), value);
  }

  /** And a "const". */
  lemma ConstStrengthens()
    ensures var value := Obj([("maximum", Leaf(Null))]);
            var only := Obj([("const", value)]);
            Valid(only, value) && !Valid(Strip(only), value)
  {
    var max := ("maximum", Leaf(Null));
    var value := Obj([max]);
    var one := ("const", value);
    assert !Kept(max) && StripFields([max]) == [];
    assert Kept(one) && StripField(one) == ("const", Obj([]));
    assert StripFields([one]) == [("const", Obj([]))];
    assert Holds(one, PropertyNames([one]), value);
    assert !Holds(("const", Obj([])), PropertyNames([("const", Obj([]))]), value);
  }

  /** And a "oneOf": without their bounds two schemas accept what one did. */
  lemma OneOfStrengthens()
    ensures var ten := Leaf(Number(10.0));
            var either := Obj([("oneOf", Arr([AtMost(3.0), Obj([])]))]);
            Valid(either, ten) && !Valid(Strip(either), ten)
  {
    var ten := Leaf(Number(10.0));
    var oneOf := ("oneOf", Arr([AtMost(3.0), Obj([])]));
    AtMostStripped(3.0, 10.0);
    TwoStripped(AtMost(3.0), Obj([]));
    var stripped := ("oneOf", Arr([Obj([]), Obj([])]));
    assert Kept(oneOf) && StripField(oneOf) == stripped;
    assert StripFields([oneOf]) == [stripped];
    CountTwo(AtMost(3.0), Obj([]), ten);
    CountTwo(Obj([]), Obj([]), ten);
    assert Valid(Obj([]), ten);
    assert Holds(oneOf, PropertyNames([oneOf]), ten);
    assert !Holds(stripped, PropertyNames([stripped]), ten);
  }

  lemma TwoStripped(a: Node, b: Node)
    ensures StripItems([a, b]) == [Strip(a), Strip(b)]
  {
    ItemsStripped([a, b]);
  }

  lemma CountTwo(a: Node, b: Node, value: Node)
    ensures CountValid([a, b], value) == (if Valid(a, value) then 1 else 0) + (if Valid(b, value) then 1 else 0)
  {
    hide Valid;
    assert [a, b][1..] == [b] && [b][1..] == [];
    assert CountValid([b], value) == if Valid(b, value) then 1 else 0;
  }

  // ----- What is left -----

  /** No unsupported keyword stands where a keyword may. */
  predicate Clean(n: Node) {
    match n
    case Arr(items) => forall i :: 0 <= i < |items| ==> Clean(items[i])
    case Obj(fields) => forall i :: 0 <= i < |fields| ==> CleanField(fields[i])
    case Leaf(_) => true
  }

  predicate CleanField(field: (string, Node)) {
    if IsProperties(field) then
      forall j :: 0 <= j < |field.1.fields| ==> Clean(field.1.fields[j].1)
    else !Unsupported(field.0) && Clean(field.1)
  }

  /** A stripped schema has no unsupported keyword left; a property may still be named as one. */
  lemma {:induction false} StrippedIsClean(n: Node)
    ensures Clean(Strip(n))
    decreases n
  {
    match n
    case Arr(items) =>
      ItemsStripped(items);
      forall i | 0 <= i < |items| ensures Clean(Strip(items[i])) {
        StrippedIsClean(items[i]);
      }
    case Obj(fields) => FieldsClean(fields);
    case Leaf(_) =>
  }

  lemma {:induction false} FieldsClean(fields: seq<(string, Node)>)
    ensures forall i :: 0 <= i < |StripFields(fields)| ==> CleanField(StripFields(fields)[i])
    decreases fields
  {
    hide CleanField, StripField, Kept;
    if fields != [] {
      FieldsClean(fields[1..]);
      if Kept(fields[0]) {
        FieldClean(fields[0]);
        assert StripFields(fields)[1..] == StripFields(fields[1..]);
        assert StripFields(fields) == [StripField(fields[0])] + StripFields(fields[1..]);
      } else {
        assert StripFields(fields) == StripFields(fields[1..]);
      }
    }
  }

  lemma {:induction false} FieldClean(field: (string, Node))
    requires Kept(field)
    ensures CleanField(StripField(field))
    decreases field
  {
    hide Clean, Unsupported, Strip, StripProperties;
    SameShape(field.1);
    if IsProperties(field) {
      var props := field.1.fields;
      PropertiesStripped(props);
      forall j | 0 <= j < |props| ensures Clean(Strip(props[j].1)) {
        PropertyClean(props[j]);
      }
    } else {
      StrippedIsClean(field.1);
    }
  }

  lemma {:induction false} PropertyClean(prop: (string, Node))
    ensures Clean(Strip(prop.1))
    decreases prop
  {
    StrippedIsClean(prop.1);
  }

  /** Nothing else changes: a schema without unsupported keywords comes back as it was. */
  lemma {:induction false} CleanIsUntouched(n: Node)
    requires Clean(n)
    ensures Strip(n) == n
    decreases n
  {
    match n
    case Arr(items) =>
      ItemsStripped(items);
      forall i | 0 <= i < |items| ensures Strip(items[i]) == items[i] {
        CleanIsUntouched(items[i]);
      }
      assert StripItems(items) == items;
    case Obj(fields) => FieldsUntouched(fields);
    case Leaf(_) =>
  }

  lemma {:induction false} FieldsUntouched(fields: seq<(string, Node)>)
    requires forall i :: 0 <= i < |fields| ==> CleanField(fields[i])
    ensures StripFields(fields) == fields
    decreases fields
  {
    hide CleanField, StripField, Kept;
    if fields != [] {
      FieldUntouched(fields[0]);
      FieldsUntouched(fields[1..]);
      assert [fields[0]] + fields[1..] == fields;
    }
  }

  lemma {:induction false} FieldUntouched(field: (string, Node))
    requires CleanField(field)
    ensures Kept(field) && StripField(field) == field
    decreases field
  {
    hide Clean, Unsupported, Strip, StripProperties;
    if IsProperties(field) {
      var props := field.1.fields;
      PropertiesStripped(props);
      forall j | 0 <= j < |props| ensures Strip(props[j].1) == props[j].1 {
        PropertyUntouched(props[j]);
      }
      assert StripProperties(props) == props;
    } else {
      CleanIsUntouched(field.1);
    }
  }

  lemma {:induction false} PropertyUntouched(prop: (string, Node))
    requires Clean(prop.1)
    ensures Strip(prop.1) == prop.1
    decreases prop
  {
    CleanIsUntouched(prop.1);
  }

  /** Stripping a second time changes nothing, and the first time changes something exactly
      when there is a keyword to drop. */
  lemma StripIsIdempotent(n: Node)
    ensures Strip(Strip(n)) == Strip(n)
    ensures Strip(n) == n <==> Clean(n)
  {
    hide Strip, Clean;
    StrippedIsClean(n);
    CleanIsUntouched(Strip(n));
    if Clean(n) {
      CleanIsUntouched(n);
    }
  }

  function Keys(fields: seq<(string, Node)>): (r: seq<string>)
    ensures |r| == |fields| && forall i :: 0 <= i < |fields| ==> r[i] == fields[i].0
  {
    seq(|fields|, i requires 0 <= i < |fields| => fields[i].0)
  }

  /** The positions of the fields that stay, in order. */
  function KeptAt(fields: seq<(string, Node)>): seq<nat> {
    if fields == [] then []
    else
      var last := |fields| - 1;
      KeptAt(fields[..last]) + if Kept(fields[last]) then [last] else []
  }

  lemma {:induction false} StripFieldsSnoc(fields: seq<(string, Node)>, field: (string, Node))
    ensures StripFields(fields + [field]) == StripFields(fields) + if Kept(field) then [StripField(field)] else []
    decreases |fields|
  {
    hide Kept, StripField;
    var all := fields + [field];
    if fields == [] {
      assert all == [field] && all[1..] == [];
    } else {
      var first := if Kept(fields[0]) then [StripField(fields[0])] else [];
      var last := if Kept(field) then [StripField(field)] else [];
      assert all[1..] == fields[1..] + [field] && all[0] == fields[0];
      StripFieldsSnoc(fields[1..], field);
      assert StripFields(all) == first + (StripFields(fields[1..]) + last);
    }
  }

  /** at lists, in order, the positions of the kept fields and no others. */
  predicate InOrder(fields: seq<(string, Node)>, at: seq<nat>) {
    && (forall j, k :: 0 <= j < k < |at| ==> at[j] < at[k])
    && (forall k :: 0 <= k < |at| ==> at[k] < |fields| && Kept(fields[at[k]]))
    && (forall i :: 0 <= i < |fields| && Kept(fields[i]) ==> i in at)
  }

  lemma InOrderSnoc(fields: seq<(string, Node)>, field: (string, Node), at: seq<nat>)
    requires InOrder(fields, at)
    ensures InOrder(fields + [field], at + if Kept(field) then [|fields|] else [])
  {
    hide Kept;
    var all, last := fields + [field], if Kept(field) then [|fields|] else [];
    forall k | 0 <= k < |at + last| ensures (at + last)[k] < |all| && Kept(all[(at + last)[k]]) {
      if k < |at| {
        assert (at + last)[k] == at[k] && all[at[k]] == fields[at[k]];
      }
    }
    forall i | 0 <= i < |all| && Kept(all[i]) ensures i in at + last {
      if i < |fields| {
        assert all[i] == fields[i] && i in at;
      }
    }
  }

  lemma {:induction false} KeptAtInOrder(fields: seq<(string, Node)>)
    ensures InOrder(fields, KeptAt(fields))
    decreases |fields|
  {
    hide Kept;
    if fields != [] {
      hide InOrder;
      var last := |fields| - 1;
      KeptAtInOrder(fields[..last]);
      InOrderSnoc(fields[..last], fields[last], KeptAt(fields[..last]));
      assert fields[..last] + [fields[last]] == fields;
    }
  }

  lemma {:induction false} StrippedByPosition(fields: seq<(string, Node)>)
    ensures var at := KeptAt(fields);
            && |StripFields(fields)| == |at|
            && forall k :: 0 <= k < |at| ==> at[k] < |fields| && StripFields(fields)[k] == StripField(fields[at[k]])
    decreases |fields|
  {
    hide Kept, StripField, StripFields;
    if fields == [] {
      NothingLeft();
    } else {
      var last := |fields| - 1;
      StrippedByPosition(fields[..last]);
      StripFieldsSnoc(fields[..last], fields[last]);
      assert fields[..last] + [fields[last]] == fields;
    }
  }

  /** The keys of an object keep their order, every key but the unsupported ones stays, and
      the names under "properties" all stay, in order. */
  lemma OrderIsKept(fields: seq<(string, Node)>)
    ensures var at := KeptAt(fields);
            && |StripFields(fields)| == |at|
            && (forall j, k :: 0 <= j < k < |at| ==> at[j] < at[k])
            && (forall k :: 0 <= k < |at| ==> at[k] < |fields| && StripFields(fields)[k].0 == fields[at[k]].0)
            && (forall i :: 0 <= i < |fields| && !Unsupported(fields[i].0) ==> i in at)
    ensures forall k :: 0 <= k < |KeptAt(fields)| && IsProperties(fields[KeptAt(fields)[k]]) ==>
              StripFields(fields)[k].1.Obj?
              && Keys(StripFields(fields)[k].1.fields) == Keys(fields[KeptAt(fields)[k]].1.fields)
  {
    hide StripFields, KeptAt, Unsupported, Keys;
    KeptAtInOrder(fields);
    StrippedByPosition(fields);
    forall k | 0 <= k < |KeptAt(fields)| && IsProperties(fields[KeptAt(fields)[k]])
      ensures StripFields(fields)[k].1.Obj?
              && Keys(StripFields(fields)[k].1.fields) == Keys(fields[KeptAt(fields)[k]].1.fields)
    {
      PropertiesStripped(fields[KeptAt(fields)[k]].1.fields);
    }
  }
}
