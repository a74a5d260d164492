/** Tool schemas (pkg/provider/antigravity/antigravity.go): the sanitizer that strips keywords Google rejects and the
    validator that runs beside it, over decoded JSON. */
module ToolSchema {
  import opened Common
  import opened JsonValue

  const ALLOWED := {"type", "format", "title", "description", "nullable", "enum", "enumNames", "default", "items", "minItems",
                    "maxItems", "minProperties", "maxProperties", "minLength", "maxLength", "pattern", "example", "examples",
                    "properties", "propertyOrdering", "required", "anyOf", "definitions"}

  // ---------------------------------------------------------------- the sanitizer

  function Sanitize(node: Json): Json
    requires node.Object?
    decreases node, 0
  {
    Object(map k | k in node.fields && k in ALLOWED :: SanitizeField(k, node.fields[k]))
  }

  function SanitizeField(k: string, v: Json): Json
    decreases v, 2
  {
    if k == "properties" || k == "definitions" then
      if v.Object? then Object(map name | name in v.fields :: SanitizeSub(v.fields[name])) else v
    else if k == "items" || k == "additionalProperties" then SanitizeSub(v)
    else v
  }

  function SanitizeSub(v: Json): Json
    decreases v, 1
  {
    if v.Object? then Sanitize(v) else v
  }

  // ---------------------------------------------------------------- the validator

  function Properties(node: Fields): Option<Fields> {
    if "properties" in node && node["properties"].Object? then Some(node["properties"].fields) else None
  }

  predicate HasProperties(node: Fields) {
    "properties" in node && node["properties"] != Null && (node["properties"].Object? ==> node["properties"].fields != map[])
  }

  function StringsIn(items: seq<Json>): seq<string> {
    if items == [] then [] else StringsIn(DropLast(items)) + if Last(items).String? then [Last(items).s] else []
  }

  function RequiredNames(node: Fields): seq<string> {
    if "required" !in node then []
    else
      match node["required"]
      case Strings(names) => names
      case Array(items) => StringsIn(items)
      case _ => []
  }

  predicate HasRequired(node: Fields) {
    "required" in node && node["required"] != Null
    && (node["required"].Strings? || node["required"].Array? ==> RequiredNames(node) != [])
  }

  predicate IsObjectType(node: Fields) {
    "type" in node && node["type"].String? && Lower(node["type"].s) == "object"
  }

  /** The two rules a node must meet: properties or required only on an object, and required names among the properties. */
  predicate RulesHold(node: Fields) {
    && (HasProperties(node) || HasRequired(node) ==> IsObjectType(node))
    && (HasRequired(node) ==> Properties(node).Some?
                              && forall name :: name in RequiredNames(node) ==> name in Properties(node).value)
  }

  // From a node to a node below it.
  datatype Step = Property(name: string) | Items | Definition(name: string) | Defs(name: string)

  function Entry(node: Fields, k: string, name: string): Option<Json> {
    if k in node && node[k].Object? && name in node[k].fields && node[k].fields[name].Object? then Some(node[k].fields[name])
    else None
  }

  function Child(node: Json, step: Step): (r: Option<Json>)
    requires node.Object?
    ensures r.Some? ==> r.value.Object? && r.value < node
  {
    match step
    case Property(name) => Entry(node.fields, "properties", name)
    case Items => if "items" in node.fields && node.fields["items"].Object? then Some(node.fields["items"]) else None
    case Definition(name) => Entry(node.fields, "definitions", name)
    case Defs(name) => Entry(node.fields, "$defs", name)
  }

  // The node at the end of a path.
  function At(node: Json, path: seq<Step>): (r: Option<Json>)
    requires node.Object?
    ensures r.Some? ==> r.value.Object?
    decreases |path|
  {
    if path == [] then Some(node)
    else
      match Child(node, path[0])
      case None => None
      case Some(c) => At(c, path[1..])
  }

  // What the recursion computes.
  ghost predicate Accepts(node: Json)
    requires node.Object?
    decreases node
  {
    RulesHold(node.fields) && forall step :: Child(node, step).Some? ==> Accepts(Child(node, step).value)
  }

  // ---------------------------------------------------------------- the rules, in the words of a schema

  // The type is "object", in any case.
  predicate SaysObject(node: Fields) {
    && "type" in node && node["type"].String?
    && var t := node["type"].s; |t| == 6 && forall i :: 0 <= i < 6 ==> SameLetter(t[i], "object"[i])
  }

  // The node lists name as required.
  predicate Demands(node: Fields, name: string) {
    && "required" in node
    && match node["required"]
       case Strings(names) => name in names
       case Array(items) => String(name) in items
       case _ => false
  }

  // Its required list is neither absent, nor null, nor a list without names.
  ghost predicate DemandsSomething(node: Fields) {
    && "required" in node && node["required"] != Null
    && (node["required"].Strings? || node["required"].Array? ==> exists name :: Demands(node, name))
  }

  // Its properties are neither absent, nor null, nor an empty map.
  predicate Offers(node: Fields) {
    "properties" in node && node["properties"] != Null && node["properties"] != Object(map[])
  }

  /** The ways to break a rule: properties or required names on something that is no object, required names without a map of
      properties, and a required name that is none of them. */
  ghost predicate Violates(node: Fields) {
    || (!SaysObject(node) && (Offers(node) || DemandsSomething(node)))
    || (DemandsSomething(node) && !("properties" in node && node["properties"].Object?))
    || (exists name :: Demands(node, name) && "properties" in node && node["properties"].Object? && name !in node["properties"].fields)
  }

  lemma {:induction false} ObjectTypeIff(node: Fields)
    ensures IsObjectType(node) <==> SaysObject(node)
  {
    if "type" in node && node["type"].String? {
      var t := node["type"].s;
      if |t| == 6 {
        assert forall i :: 0 <= i < 6 ==> (Lower(t)[i] == "object"[i] <==> SameLetter(t[i], "object"[i]));
        assert Lower(t) == "object" <==> forall i :: 0 <= i < 6 ==> Lower(t)[i] == "object"[i];
      } else {
        assert |Lower(t)| != 6;
      }
    }
  }

  lemma {:induction false} StringsInHas(items: seq<Json>, name: string)
    ensures name in StringsIn(items) <==> String(name) in items
    decreases |items|
  {
    if items != [] {
      StringsInHas(DropLast(items), name);
      assert items == DropLast(items) + [Last(items)];
    }
  }

  lemma {:induction false} DemandsIff(node: Fields, name: string)
    ensures name in RequiredNames(node) <==> Demands(node, name)
  {
    if "required" in node && node["required"].Array? {
      StringsInHas(node["required"].items, name);
    }
  }

  lemma {:induction false} DemandsSomethingIff(node: Fields)
    ensures HasRequired(node) <==> DemandsSomething(node)
  {
    forall name ensures name in RequiredNames(node) <==> Demands(node, name) {
      DemandsIff(node, name);
    }
    if RequiredNames(node) != [] {
      assert RequiredNames(node)[0] in RequiredNames(node);
    }
  }

  lemma {:induction false} RulesIff(node: Fields)
    ensures RulesHold(node) <==> !Violates(node)
  {
    ObjectTypeIff(node);
    DemandsSomethingIff(node);
    forall name ensures name in RequiredNames(node) <==> Demands(node, name) {
      DemandsIff(node, name);
    }
    OffersIff(node);
    forall name | Demands(node, name) ensures DemandsSomething(node) {
    }
  }

  lemma {:induction false} OffersIff(node: Fields)
    ensures HasProperties(node) <==> Offers(node)
  {
  }

  // sub is a schema directly below the node.
  ghost predicate Below(node: Fields, sub: Json) {
    && sub.Object?
    && (("items" in node && node["items"] == sub)
        || (exists k, name :: k in {"properties", "definitions", "$defs"} && k in node && node[k].Object?
                              && name in node[k].fields && node[k].fields[name] == sub))
  }

  lemma {:induction false} ChildIff(node: Json, sub: Json)
    requires node.Object?
    ensures (exists step :: Child(node, step) == Some(sub)) <==> Below(node.fields, sub)
  {
    if Below(node.fields, sub) {
      if "items" in node.fields && node.fields["items"] == sub {
        assert Child(node, Items) == Some(sub);
      } else {
        var k, name :| k in {"properties", "definitions", "$defs"} && k in node.fields && node.fields[k].Object?
                       && name in node.fields[k].fields && node.fields[k].fields[name] == sub;
        var step := StepInto(k, name);
        assert Child(node, step) == Some(sub);
      }
    }
    if step :| Child(node, step) == Some(sub) {
      match step
      case Items =>
      case Property(name) => assert "properties" in {"properties", "definitions", "$defs"} && name in node.fields["properties"].fields;
      case Definition(name) => assert "definitions" in {"properties", "definitions", "$defs"} && name in node.fields["definitions"].fields;
      case Defs(name) => assert "$defs" in {"properties", "definitions", "$defs"} && name in node.fields["$defs"].fields;
    }
  }

  /** In the words of a schema: one is accepted exactly when it breaks no rule itself and everything directly below it (its
      items, and each entry of properties, definitions and $defs) is accepted. */
  lemma {:induction false} AcceptedIff(node: Json)
    requires node.Object?
    ensures Accepts(node) <==> !Violates(node.fields) && forall sub :: Below(node.fields, sub) ==> Accepts(sub)
  {
    RulesIff(node.fields);
    forall sub ensures (exists step :: Child(node, step) == Some(sub)) <==> Below(node.fields, sub) {
      ChildIff(node, sub);
    }
    if !Violates(node.fields) && forall sub :: Below(node.fields, sub) ==> Accepts(sub) {
      forall step | Child(node, step).Some? ensures Accepts(Child(node, step).value) {
        assert Child(node, step) == Some(Child(node, step).value);
        assert Below(node.fields, Child(node, step).value);
      }
    }
  }

  lemma {:induction false} AcceptedEverywhere(node: Json, path: seq<Step>)
    requires node.Object? && Accepts(node) && At(node, path).Some?
    ensures RulesHold(At(node, path).value.fields)
    decreases |path|
  {
    if path != [] {
      AcceptedEverywhere(Child(node, path[0]).value, path[1..]);
    }
  }

  lemma {:induction false} RejectedSomewhere(node: Json) returns (path: seq<Step>)
    requires node.Object? && !Accepts(node)
    ensures At(node, path).Some? && !RulesHold(At(node, path).value.fields)
    decreases node
  {
    path := [];
    if RulesHold(node.fields) {
      var step :| Child(node, step).Some? && !Accepts(Child(node, step).value);
      var below := RejectedSomewhere(Child(node, step).value);
      path := [step] + below;
      assert path[0] == step && path[1..] == below;
    }
  }

  /** The validator accepts a schema exactly when every node reachable through properties, items, definitions and $defs
      meets both rules. */
  lemma {:induction false} AcceptsIff(node: Json)
    requires node.Object?
    ensures Accepts(node) <==> forall path :: At(node, path).Some? ==> RulesHold(At(node, path).value.fields)
  {
    if Accepts(node) {
      forall path | At(node, path).Some? ensures RulesHold(At(node, path).value.fields) {
        AcceptedEverywhere(node, path);
      }
    } else {
      var path := RejectedSomewhere(node);
    }
  }

  // ---------------------------------------------------------------- sanitizing

  // Sanitize, key by key.
  lemma {:induction false} SanitizeKey(node: Json, k: string)
    requires node.Object?
    ensures k in Sanitize(node).fields <==> k in node.fields && k in ALLOWED
    ensures k in Sanitize(node).fields ==> Sanitize(node).fields[k] == SanitizeField(k, node.fields[k])
  {
  }

  lemma {:induction false} SanitizeEntries(k: string, v: Json)
    requires (k == "properties" || k == "definitions") && v.Object?
    ensures SanitizeField(k, v).Object? && SanitizeField(k, v).fields.Keys == v.fields.Keys
    ensures forall name :: name in v.fields ==> SanitizeField(k, v).fields[name] == SanitizeSub(v.fields[name])
  {
  }

  lemma {:induction false} SanitizeItems(k: string, v: Json)
    ensures k == "items" ==> SanitizeField(k, v) == SanitizeSub(v)
    ensures k !in {"properties", "definitions", "items", "additionalProperties"} ==> SanitizeField(k, v) == v
    ensures SanitizeField(k, v).Object? <==> v.Object?
  {
    SubObject(v);
  }

  lemma {:induction false} SanitizeEntry(node: Json, k: string, name: string)
    requires node.Object? && (k == "properties" || k == "definitions")
    ensures Entry(Sanitize(node).fields, k, name) == Sanitized(Entry(node.fields, k, name))
  {
    SanitizeKey(node, k);
    if k in node.fields {
      var v := node.fields[k];
      SanitizeItems(k, v);
      if v.Object? {
        SanitizeEntries(k, v);
        if name in v.fields {
          SubObject(v.fields[name]);
        }
      }
    }
  }

  lemma {:induction false} SubObject(v: Json)
    ensures SanitizeSub(v).Object? <==> v.Object?
  {
  }

  function Sanitized(r: Option<Json>): Option<Json> {
    if r.Some? then Some(SanitizeSub(r.value)) else None
  }

  lemma {:induction false} SanitizeChild(node: Json, step: Step)
    requires node.Object?
    ensures Child(Sanitize(node), step) == if step.Defs? then None else Sanitized(Child(node, step))
  {
    match step
    case Property(name) => SanitizeEntry(node, "properties", name);
    case Definition(name) => SanitizeEntry(node, "definitions", name);
    case Items =>
      SanitizeKey(node, "items");
      if "items" in node.fields {
        SanitizeItems("items", node.fields["items"]);
        SubObject(node.fields["items"]);
      }
    case Defs(_) => SanitizeKey(node, "$defs");
  }

  predicate NoDefs(path: seq<Step>) {
    forall i :: 0 <= i < |path| ==> !path[i].Defs?
  }

  /** Sanitizing commutes with walking down, except that nothing is left below $defs. */
  lemma {:induction false} SanitizeAt(node: Json, path: seq<Step>)
    requires node.Object?
    ensures At(Sanitize(node), path) == if NoDefs(path) then Sanitized(At(node, path)) else None
    decreases |path|
  {
    if path != [] {
      SanitizeChild(node, path[0]);
      assert NoDefs(path) <==> !path[0].Defs? && NoDefs(path[1..]);
      if Child(node, path[0]).Some? && !path[0].Defs? {
        SanitizeAt(Child(node, path[0]).value, path[1..]);
      }
    }
  }

  /** A node keeps exactly its whitelisted keys, and whatever is not a sub-schema (anyOf, enum, ...) as it was. */
  lemma {:induction false} KeepsAllowedKeys(node: Json)
    requires node.Object?
    ensures Sanitize(node).fields.Keys == node.fields.Keys * ALLOWED
    ensures forall k :: k in Sanitize(node).fields && k !in {"properties", "definitions", "items"} ==>
              Sanitize(node).fields[k] == node.fields[k]
  {
    forall k | k in Sanitize(node).fields && k !in {"properties", "definitions", "items"}
      ensures Sanitize(node).fields[k] == node.fields[k]
    {
      SanitizeKey(node, k);
      SanitizeItems(k, node.fields[k]);
    }
  }

  /** Every node that can be reached in a sanitized schema has whitelisted keys only. */
  lemma {:induction false} OnlyAllowedKeys(node: Json, path: seq<Step>)
    requires node.Object? && At(Sanitize(node), path).Some?
    ensures At(Sanitize(node), path).value.fields.Keys <= ALLOWED
  {
    SanitizeAt(node, path);
    KeepsAllowedKeys(At(node, path).value);
  }

  lemma {:induction false} SubIdempotent(v: Json)
    ensures SanitizeSub(SanitizeSub(v)) == SanitizeSub(v)
    decreases v, 1
  {
    if v.Object? {
      SanitizeIdempotent(v);
    }
  }

  lemma {:induction false} FieldIdempotent(k: string, v: Json)
    ensures SanitizeField(k, SanitizeField(k, v)) == SanitizeField(k, v)
    decreases v, 2
  {
    if (k == "properties" || k == "definitions") && v.Object? {
      var once := SanitizeField(k, v);
      SanitizeEntries(k, v);
      SanitizeEntries(k, once);
      forall name | name in v.fields ensures SanitizeField(k, once).fields[name] == once.fields[name] {
        SubIdempotent(v.fields[name]);
      }
      assert SanitizeField(k, once).fields == once.fields;
    } else if k == "items" || k == "additionalProperties" {
      SubIdempotent(v);
    }
  }

  /** Sanitizing twice is sanitizing once. */
  lemma {:induction false} SanitizeIdempotent(node: Json)
    requires node.Object?
    ensures Sanitize(Sanitize(node)) == Sanitize(node)
    decreases node, 0
  {
    var once, twice := Sanitize(node), Sanitize(Sanitize(node));
    forall k | k in node.fields && k in ALLOWED ensures k in twice.fields && twice.fields[k] == once.fields[k] {
      SanitizeKey(node, k);
      SanitizeKey(once, k);
      FieldIdempotent(k, node.fields[k]);
    }
    assert twice.fields.Keys == once.fields.Keys;
    assert twice.fields == once.fields;
  }

  lemma {:induction false} SanitizeKeepsRules(node: Json)
    requires node.Object?
    ensures RulesHold(Sanitize(node).fields) <==> RulesHold(node.fields)
  {
    KeepsAllowedKeys(node);
    SanitizeKey(node, "type");
    SanitizeKey(node, "required");
    SanitizeKey(node, "properties");
    if "properties" in node.fields {
      SanitizeItems("properties", node.fields["properties"]);
      if node.fields["properties"].Object? {
        SanitizeEntries("properties", node.fields["properties"]);
      } else {
        assert Sanitize(node).fields["properties"] == node.fields["properties"];
      }
    }
    SameRules(Sanitize(node).fields, node.fields);
  }

  lemma {:induction false} SameRules(a: Fields, b: Fields)
    requires "type" in a <==> "type" in b
    requires "type" in a ==> a["type"] == b["type"]
    requires "required" in a <==> "required" in b
    requires "required" in a ==> a["required"] == b["required"]
    requires "properties" in a <==> "properties" in b
    requires "properties" in a ==> (a["properties"].Object? <==> b["properties"].Object?)
    requires "properties" in a ==> if a["properties"].Object? then a["properties"].fields.Keys == b["properties"].fields.Keys
                                   else a["properties"] == b["properties"]
    ensures RulesHold(a) <==> RulesHold(b)
  {
    assert HasRequired(a) == HasRequired(b) && RequiredNames(a) == RequiredNames(b) && IsObjectType(a) == IsObjectType(b);
    if Properties(a).Some? {
      assert Properties(a).value == map[] <==> Properties(a).value.Keys == {};
      assert Properties(b).value == map[] <==> Properties(b).value.Keys == {};
    }
  }

  /** A sanitized schema is accepted exactly when the original's nodes reachable without $defs meet both rules. */
  lemma {:induction false} SanitizedAcceptedIff(node: Json)
    requires node.Object?
    ensures Accepts(Sanitize(node))
       <==> forall path :: NoDefs(path) && At(node, path).Some? ==> RulesHold(At(node, path).value.fields)
  {
    var clean := Sanitize(node);
    AcceptsIff(clean);
    forall path | NoDefs(path) && At(node, path).Some?
      ensures At(clean, path).Some?
      ensures RulesHold(At(clean, path).value.fields) <==> RulesHold(At(node, path).value.fields)
    {
      SanitizeAt(node, path);
      SanitizeKeepsRules(At(node, path).value);
    }
    forall path | At(clean, path).Some? ensures NoDefs(path) && At(node, path).Some? {
      SanitizeAt(node, path);
    }
    if Accepts(clean) {
      forall path | NoDefs(path) && At(node, path).Some? ensures RulesHold(At(node, path).value.fields) {
        assert RulesHold(At(clean, path).value.fields);
      }
    }
  }

  /** An accepted schema stays accepted. */
  lemma {:induction false} SanitizeKeepsAccepted(node: Json)
    requires node.Object? && Accepts(node)
    ensures Accepts(Sanitize(node))
  {
    AcceptsIff(node);
    SanitizedAcceptedIff(node);
  }

  /** But a schema that only breaks a rule below $defs is rejected before sanitizing and accepted after. */
  lemma {:induction false} DefsHideViolations(name: string)
    ensures var bad := Object(map["required" := Bool(true)]);
            var schema := Object(map["$defs" := Object(map[name := bad])]);
            !Accepts(schema) && Accepts(Sanitize(schema))
  {
    var bad := Object(map["required" := Bool(true)]);
    var schema := Object(map["$defs" := Object(map[name := bad])]);
    assert Child(schema, Defs(name)) == Some(bad) && !RulesHold(bad.fields);
    assert Sanitize(schema) == Object(map[]);
    assert forall step :: Child(Object(map[]), step).None?;
  }

  // ---------------------------------------------------------------- the loops

  /** validateSchemaNode, visiting the maps in any order.  It accepts as Accepts says, and otherwise names a node that
      breaks a rule. */
  method ValidateNode(node: Json) returns (bad: Option<seq<Step>>)
    requires node.Object?
    ensures bad.None? <==> Accepts(node)
    ensures bad.Some? ==> At(node, bad.value).Some? && !RulesHold(At(node, bad.value).value.fields)
    decreases node, 1
  {
    if !RulesHold(node.fields) {
      return Some([]);
    }
    bad := ValidateEntries(node, "properties");
    if bad.Some? {
      return;
    }
    if "items" in node.fields && node.fields["items"].Object? {
      bad := ValidateNode(node.fields["items"]);
      if bad.Some? {
        bad := Upwards(node, Items, bad.value);
        return;
      }
    }
    bad := ValidateEntries(node, "definitions");
    if bad.Some? {
      return;
    }
    bad := ValidateEntries(node, "$defs");
    forall step | bad.None? && Child(node, step).Some? ensures Accepts(Child(node, step).value) {
      match step
      case Items =>
      case Property(name) => assert StepInto("properties", name) == step;
      case Definition(name) => assert StepInto("definitions", name) == step;
      case Defs(name) => assert StepInto("$defs", name) == step;
    }
  }

  function StepInto(k: string, name: string): Step {
    if k == "properties" then Property(name) else if k == "definitions" then Definition(name) else Defs(name)
  }

  // The loop over one map of sub-schemas.
  method ValidateEntries(node: Json, k: string) returns (bad: Option<seq<Step>>)
    requires node.Object? && (k == "properties" || k == "definitions" || k == "$defs")
    ensures bad.None? ==> forall name :: Child(node, StepInto(k, name)).Some? ==> Accepts(Child(node, StepInto(k, name)).value)
    ensures bad.Some? ==> At(node, bad.value).Some? && !RulesHold(At(node, bad.value).value.fields) && !Accepts(node)
    decreases node, 0
  {
    if k !in node.fields || !node.fields[k].Object? {
      return None;
    }
    var entries := node.fields[k].fields;
    var left := entries.Keys;
    while left != {}
      invariant left <= entries.Keys
      invariant forall name :: name in entries.Keys - left && entries[name].Object? ==> Accepts(entries[name])
    {
      var name :| name in left;
      left := left - {name};
      if entries[name].Object? {
        bad := ValidateNode(entries[name]);
        if bad.Some? {
          bad := Upwards(node, StepInto(k, name), bad.value);
          return;
        }
      }
    }
    return None;
  }

  // The path of a bad node, seen from one level up.
  method Upwards(node: Json, step: Step, path: seq<Step>) returns (bad: Option<seq<Step>>)
    requires node.Object? && Child(node, step).Some?
    requires At(Child(node, step).value, path).Some? && !RulesHold(At(Child(node, step).value, path).value.fields)
    ensures bad.Some? && At(node, bad.value).Some? && !RulesHold(At(node, bad.value).value.fields) && !Accepts(node)
  {
    bad := Some([step] + path);
    assert ([step] + path)[1..] == path;
    AcceptsIff(node);
  }
}
