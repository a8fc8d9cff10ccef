/** buildVariableMap and getNestedValue of internal/service/action_executor.go: which value a placeholder stands for,
    and that neither the iteration order of Go's maps nor the fallback lookup matters. */
module Variables {
  import opened Options
  import opened Template
  import Text

  /** A dynamic value, by what %v prints for it. */
  datatype Value = Nil | Text(text: string)

  type Fields = map<string, Value>

  datatype Signal = Signal(id: string, signalType: string, orgId: string, timestamp: string, metadata: Fields,
    value: Fields)

  function Builtins(s: Signal): Fields {
    map["signal_id" := Value.Text(s.id), "signal_type" := Value.Text(s.signalType),
        "org_id" := Value.Text(s.orgId), "timestamp" := Value.Text(s.timestamp)]
  }

  // ---------- one layer ----------

  /** The loop over `fields` in the given order: each key plain and qualified. */
  function AddFields(variables: Fields, fields: Fields, prefix: string, order: seq<string>): Fields
    requires forall k :: k in order ==> k in fields
  {
    if order == [] then variables
    else
      var k := order[|order| - 1];
      AddFields(variables, fields, prefix, order[..|order| - 1])[k := fields[k]][prefix + k := fields[k]]
  }

  /** An order in which a map may be visited: every key once. */
  ghost predicate IsOrder(order: seq<string>, fields: Fields) {
    && (forall k :: k in order <==> k in fields)
    && (forall i, j :: 0 <= i < j < |order| ==> order[i] != order[j])
  }

  /** Two keys claim one name with different values: k qualified, and the key spelled like that. */
  ghost predicate Conflict(fields: Fields, prefix: string) {
    exists k :: k in fields && ClaimedTwice(fields, prefix, k)
  }

  predicate ClaimedTwice(fields: Fields, prefix: string, k: string)
    requires k in fields
  {
    prefix + k in fields && fields[prefix + k] != fields[k]
  }

  /** What the name stands for in the layer, whatever the order, if there is no conflict. */
  function InLayer(fields: Fields, prefix: string, name: string): Option<Value> {
    if name in fields then Some(fields[name])
    else if prefix <= name && name[|prefix|..] in fields then Some(fields[name[|prefix|..]])
    else None
  }

  /** The layer laid over what was there, the same for every order. */
  ghost predicate Overlaid(variables: Fields, after: Fields, fields: Fields, prefix: string) {
    forall name :: Lookup(after, name) ==
      if InLayer(fields, prefix, name).Some? then InLayer(fields, prefix, name) else Lookup(variables, name)
  }

  function Lookup(variables: Fields, name: string): Option<Value> {
    if name in variables then Some(variables[name]) else None
  }

  /** What a name holds after some keys of the layer have been visited. */
  lemma {:induction false} AddedSoFar(variables: Fields, fields: Fields, prefix: string, order: seq<string>,
      name: string)
    requires (forall k :: k in order ==> k in fields) && !Conflict(fields, prefix)
    ensures var r := Lookup(AddFields(variables, fields, prefix, order), name);
      r == if name in order || (prefix <= name && name[|prefix|..] in order)
        then InLayer(fields, prefix, name) else Lookup(variables, name)
  {
    if order != [] {
      var n := |order| - 1;
      var k := order[n];
      AddedSoFar(variables, fields, prefix, order[..n], name);
      assert order == order[..n] + [k];
      assert !ClaimedTwice(fields, prefix, k);
      if prefix <= name {
        assert prefix + name[|prefix|..] == name;
        assert name[|prefix|..] in fields ==> !ClaimedTwice(fields, prefix, name[|prefix|..]);
      }
      assert (prefix + k)[|prefix|..] == k && prefix <= prefix + k;
    }
  }

  lemma WithoutConflictOverlaid(variables: Fields, fields: Fields, prefix: string, order: seq<string>)
    requires IsOrder(order, fields) && !Conflict(fields, prefix)
    ensures Overlaid(variables, AddFields(variables, fields, prefix, order), fields, prefix)
  {
    forall name ensures
      Lookup(AddFields(variables, fields, prefix, order), name)
      == if InLayer(fields, prefix, name).Some? then InLayer(fields, prefix, name) else Lookup(variables, name)
    {
      AddedSoFar(variables, fields, prefix, order, name);
    }
  }

  lemma OverlayIsUnique(variables: Fields, a: Fields, b: Fields, fields: Fields, prefix: string)
    requires Overlaid(variables, a, fields, prefix) && Overlaid(variables, b, fields, prefix)
    ensures a == b
  {
    hide InLayer;
    forall name ensures Lookup(a, name) == Lookup(b, name) {}
    assert forall name :: name in a <==> Lookup(a, name).Some?;
    assert forall name :: name in b <==> Lookup(b, name).Some?;
    forall name | name in a ensures name in b && a[name] == b[name] { assert Lookup(a, name) == Lookup(b, name); }
    assert a.Keys == b.Keys;
  }

  ghost predicate OrderMatters(variables: Fields, fields: Fields, prefix: string) {
    exists o, p :: IsOrder(o, fields) && IsOrder(p, fields)
      && AddFields(variables, fields, prefix, o) != AddFields(variables, fields, prefix, p)
  }

  /** The map built by a layer's loop depends on the iteration order exactly if two of its keys claim one name with
      different values. */
  lemma OrderMattersIffConflict(variables: Fields, fields: Fields, prefix: string)
    requires prefix != ""
    ensures OrderMatters(variables, fields, prefix) <==> Conflict(fields, prefix)
  {
    if Conflict(fields, prefix) {
      var k :| k in fields && ClaimedTwice(fields, prefix, k);
      var o := OrderEndingWith(fields, k);
      var p := OrderEndingWith(fields, prefix + k);
      assert |prefix + k| != |prefix + (prefix + k)|;
      assert AddFields(variables, fields, prefix, o)[prefix + k] == fields[k];
      assert AddFields(variables, fields, prefix, p)[prefix + k] == fields[prefix + k];
    } else {
      forall o, p | IsOrder(o, fields) && IsOrder(p, fields)
        ensures AddFields(variables, fields, prefix, o) == AddFields(variables, fields, prefix, p)
      {
        WithoutConflictOverlaid(variables, fields, prefix, o);
        WithoutConflictOverlaid(variables, fields, prefix, p);
        OverlayIsUnique(variables, AddFields(variables, fields, prefix, o), AddFields(variables, fields, prefix, p),
          fields, prefix);
      }
    }
  }

  lemma OrderEndingWith(fields: Fields, k: string) returns (order: seq<string>)
    requires k in fields
    ensures IsOrder(order, fields) && |order| > 0 && order[|order| - 1] == k
  {
    var rest := SomeOrder(fields.Keys - {k});
    order := rest + [k];
  }

  lemma {:induction false} SomeOrder(keys: set<string>) returns (order: seq<string>)
    ensures forall k :: k in order <==> k in keys
    ensures forall i, j :: 0 <= i < j < |order| ==> order[i] != order[j]
    decreases keys
  {
    if keys == {} {
      order := [];
    } else {
      var k :| k in keys;
      var rest := SomeOrder(keys - {k});
      order := rest + [k];
    }
  }

  // ---------- all layers ----------

  /** A key that starts with its own layer's prefix is needed for a conflict. */
  lemma NoQualifiedKeysNoConflict(fields: Fields, prefix: string)
    requires forall k :: k in fields ==> !(prefix <= k)
    ensures !Conflict(fields, prefix)
  {
    forall k | k in fields ensures !ClaimedTwice(fields, prefix, k) { assert prefix <= prefix + k; }
  }

  /** Run context first, then the signal's value, then its metadata, then the built-ins. */
  function Resolve(s: Signal, runContext: Fields, name: string): Option<Value> {
    if name in runContext then Some(runContext[name])
    else if InLayer(s.value, "value.", name).Some? then InLayer(s.value, "value.", name)
    else if InLayer(s.metadata, "metadata.", name).Some? then InLayer(s.metadata, "metadata.", name)
    else Lookup(Builtins(s), name)
  }

  function Layers(s: Signal, runContext: Fields, metadataOrder: seq<string>, valueOrder: seq<string>): Fields
    requires (forall k :: k in metadataOrder ==> k in s.metadata) && (forall k :: k in valueOrder ==> k in s.value)
  {
    AddFields(AddFields(Builtins(s), s.metadata, "metadata.", metadataOrder), s.value, "value.", valueOrder)
      + runContext
  }

  /** Precedence, and independence of both iteration orders: without conflicts every name resolves layer by layer. */
  lemma PrecedenceHolds(s: Signal, runContext: Fields, metadataOrder: seq<string>, valueOrder: seq<string>,
      name: string)
    requires IsOrder(metadataOrder, s.metadata) && IsOrder(valueOrder, s.value)
    requires !Conflict(s.metadata, "metadata.") && !Conflict(s.value, "value.")
    ensures Lookup(Layers(s, runContext, metadataOrder, valueOrder), name) == Resolve(s, runContext, name)
  {
    hide InLayer, Conflict, Builtins;
    var a := AddFields(Builtins(s), s.metadata, "metadata.", metadataOrder);
    var b := AddFields(a, s.value, "value.", valueOrder);
    WithoutConflictOverlaid(Builtins(s), s.metadata, "metadata.", metadataOrder);
    WithoutConflictOverlaid(a, s.value, "value.", valueOrder);
    assert Lookup(b, name) == if InLayer(s.value, "value.", name).Some?
      then InLayer(s.value, "value.", name) else Lookup(a, name);
    assert Lookup(a, name) == if InLayer(s.metadata, "metadata.", name).Some?
      then InLayer(s.metadata, "metadata.", name) else Lookup(Builtins(s), name);
  }

  /** The key is in the map, plain or behind the map's prefix. */
  predicate Claims(fields: Fields, prefix: string, name: string) {
    name in fields || (prefix <= name && name[|prefix|..] in fields)
  }

  predicate Unclaimed(s: Signal, runContext: Fields, name: string) {
    name !in runContext && !Claims(s.value, "value.", name) && !Claims(s.metadata, "metadata.", name)
  }

  lemma {:induction false} OthersStay(variables: Fields, fields: Fields, prefix: string, order: seq<string>,
      name: string)
    requires (forall k :: k in order ==> k in fields) && !Claims(fields, prefix, name)
    ensures Lookup(AddFields(variables, fields, prefix, order), name) == Lookup(variables, name)
  {
    if order != [] {
      var n := |order| - 1;
      assert order == order[..n] + [order[n]];
      assert (prefix + order[n])[|prefix|..] == order[n];
      OthersStay(variables, fields, prefix, order[..n], name);
    }
  }

  /** What a name stands for that nothing claims, conflicts among other names or not: one of four fields of the signal,
      or nothing. */
  lemma UnclaimedNames(s: Signal, runContext: Fields, metadataOrder: seq<string>, valueOrder: seq<string>, name: string)
    requires IsOrder(metadataOrder, s.metadata) && IsOrder(valueOrder, s.value) && Unclaimed(s, runContext, name)
    ensures Lookup(Layers(s, runContext, metadataOrder, valueOrder), name) ==
      if name == "signal_id" then Some(Value.Text(s.id))
      else if name == "signal_type" then Some(Value.Text(s.signalType))
      else if name == "org_id" then Some(Value.Text(s.orgId))
      else if name == "timestamp" then Some(Value.Text(s.timestamp))
      else None
  {
    hide AddFields;
    var a := AddFields(Builtins(s), s.metadata, "metadata.", metadataOrder);
    OthersStay(Builtins(s), s.metadata, "metadata.", metadataOrder, name);
    OthersStay(a, s.value, "value.", valueOrder, name);
  }

  /** What a claimed name stands for: the run context comes first, then the signal's value, then its metadata, and in
      each of these a key spelled like the name before one behind the prefix. */
  lemma ClaimedNames(s: Signal, runContext: Fields, metadataOrder: seq<string>, valueOrder: seq<string>, name: string)
    requires IsOrder(metadataOrder, s.metadata) && IsOrder(valueOrder, s.value)
    requires !Conflict(s.metadata, "metadata.") && !Conflict(s.value, "value.")
    ensures !Unclaimed(s, runContext, name) ==>
      name in Layers(s, runContext, metadataOrder, valueOrder)
      && Layers(s, runContext, metadataOrder, valueOrder)[name] ==
        if name in runContext then runContext[name]
        else if name in s.value then s.value[name]
        else if "value." <= name && name[6..] in s.value then s.value[name[6..]]
        else if name in s.metadata then s.metadata[name]
        else s.metadata[name[9..]]
  {
    hide Layers, Conflict, IsOrder, Builtins;
    PrecedenceHolds(s, runContext, metadataOrder, valueOrder, name);
    hide InLayer;
    LayersOf(s.value, "value.", name);
    LayersOf(s.metadata, "metadata.", name);
  }

  lemma LayersOf(fields: Fields, prefix: string, name: string)
    ensures InLayer(fields, prefix, name).Some? <==> Claims(fields, prefix, name)
    ensures Claims(fields, prefix, name) ==>
      InLayer(fields, prefix, name) == Some(if name in fields then fields[name] else fields[name[|prefix|..]])
  {
  }

  /** The loops themselves; the orders are whatever the iteration happened to be. */
  method BuildVariableMap(s: Signal, runContext: Fields)
      returns (variables: Fields, ghost metadataOrder: seq<string>, ghost valueOrder: seq<string>)
    ensures IsOrder(metadataOrder, s.metadata) && IsOrder(valueOrder, s.value)
    ensures variables == Layers(s, runContext, metadataOrder, valueOrder)
    ensures !Conflict(s.metadata, "metadata.") && !Conflict(s.value, "value.")
            ==> forall name :: Lookup(variables, name) == Resolve(s, runContext, name)
    ensures forall name :: Unclaimed(s, runContext, name) ==>
      Lookup(variables, name) ==
        if name == "signal_id" then Some(Value.Text(s.id))
        else if name == "signal_type" then Some(Value.Text(s.signalType))
        else if name == "org_id" then Some(Value.Text(s.orgId))
        else if name == "timestamp" then Some(Value.Text(s.timestamp))
        else None
  {
    hide Builtins, Conflict, Resolve, Unclaimed, AddFields;
    variables := Builtins(s);
    variables, metadataOrder := AddLayer(variables, s.metadata, "metadata.");
    variables, valueOrder := AddLayer(variables, s.value, "value.");
    variables := variables + runContext;
    assert variables == Layers(s, runContext, metadataOrder, valueOrder);
    hide Layers;
    forall name | Unclaimed(s, runContext, name)
      ensures Lookup(variables, name) ==
        if name == "signal_id" then Some(Value.Text(s.id))
        else if name == "signal_type" then Some(Value.Text(s.signalType))
        else if name == "org_id" then Some(Value.Text(s.orgId))
        else if name == "timestamp" then Some(Value.Text(s.timestamp))
        else None
    {
      UnclaimedNames(s, runContext, metadataOrder, valueOrder, name);
    }
    if !Conflict(s.metadata, "metadata.") && !Conflict(s.value, "value.") {
      forall name ensures Lookup(variables, name) == Resolve(s, runContext, name) {
        PrecedenceHolds(s, runContext, metadataOrder, valueOrder, name);
      }
    }
  }

  method AddLayer(before: Fields, fields: Fields, prefix: string) returns (variables: Fields, ghost order: seq<string>)
    ensures IsOrder(order, fields) && variables == AddFields(before, fields, prefix, order)
  {
    variables, order := before, [];
    var rest := fields.Keys;
    while rest != {}
      invariant rest <= fields.Keys
      invariant forall k :: k in order <==> k in fields && k !in rest
      invariant forall i, j :: 0 <= i < j < |order| ==> order[i] != order[j]
      invariant variables == AddFields(before, fields, prefix, order)
      decreases |rest|
    {
      var k :| k in rest;
      rest := rest - {k};
      variables := variables[k := fields[k]];
      variables := variables[prefix + k := fields[k]];
      assert (order + [k])[..|order|] == order;
      order := order + [k];
    }
  }

  // ---------- the fallback ----------

  /** getNestedValue: exactly one dot, and "value" or "metadata" before it. */
  function NestedValue(path: string, s: Signal): Value {
    var i := Text.IndexOf(path, '.');
    if i >= |path| || '.' in path[i + 1..] then Nil
    else
      var field := path[i + 1..];
      if path[..i] == "value" && field in s.value then s.value[field]
      else if path[..i] == "metadata" && field in s.metadata then s.metadata[field]
      else Nil
  }

  lemma {:induction false} VisitedNamesStay(variables: Fields, fields: Fields, prefix: string, order: seq<string>,
      name: string)
    requires forall k :: k in order ==> k in fields
    requires name in variables || (prefix <= name && name[|prefix|..] in order)
    ensures name in AddFields(variables, fields, prefix, order)
  {
    if order != [] {
      var n := |order| - 1;
      assert order == order[..n] + [order[n]];
      if prefix <= name && name[|prefix|..] == order[n] { assert prefix + order[n] == name; }
      else { VisitedNamesStay(variables, fields, prefix, order[..n], name); }
    }
  }

  lemma SplitPath(path: string, i: nat, prefix: string)
    requires i < |path| && path[i] == '.' && path[..i] == prefix
    ensures prefix + "." <= path && path[|prefix + "."|..] == path[i + 1..]
  {
    assert path == path[..i] + [path[i]] + path[i + 1..];
  }

  lemma {:induction false} IndexOfIsAt(s: string, c: char)
    ensures Text.IndexOf(s, c) <= |s| && (Text.IndexOf(s, c) < |s| ==> s[Text.IndexOf(s, c)] == c)
  {
    if s != [] && s[0] != c { IndexOfIsAt(s[1..], c); }
  }

  /** The fallback never changes a result: whenever it would find a value, the qualified name is a variable already,
      in whatever order the maps were visited. */
  lemma FallbackIsNeverUsed(s: Signal, runContext: Fields, metadataOrder: seq<string>, valueOrder: seq<string>,
      path: string)
    requires IsOrder(metadataOrder, s.metadata) && IsOrder(valueOrder, s.value) && NestedValue(path, s) != Nil
    ensures path in Layers(s, runContext, metadataOrder, valueOrder)
  {
    hide Builtins;
    var i := Text.IndexOf(path, '.');
    IndexOfIsAt(path, '.');
    var a := AddFields(Builtins(s), s.metadata, "metadata.", metadataOrder);
    if path[..i] == "value" {
      SplitPath(path, i, "value");
      assert "value" + "." == "value.";
      VisitedNamesStay(a, s.value, "value.", valueOrder, path);
    } else {
      SplitPath(path, i, "metadata");
      assert "metadata" + "." == "metadata.";
      VisitedNamesStay(Builtins(s), s.metadata, "metadata.", metadataOrder, path);
      VisitedNamesStay(a, s.value, "value.", valueOrder, path);
    }
  }

  // ---------- a placeholder's text ----------

  /** unicode.IsSpace */
  predicate IsSpace(c: char) {
    || '\t' <= c <= '\r' || c == ' ' || c == '\U{85}' || c == '\U{A0}' || c == '\U{1680}'
      || '\U{2000}' <= c <= '\U{200A}'
    || c == '\U{2028}' || c == '\U{2029}' || c == '\U{202F}' || c == '\U{205F}' || c == '\U{3000}'
  }

  function TrimSpace(s: string): string {
    if s != [] && IsSpace(s[0]) then TrimSpace(s[1..])
    else if s != [] && IsSpace(s[|s| - 1]) then TrimSpace(s[..|s| - 1])
    else s
  }

  /** What is left is the text between its first and its last character that is no space. */
  lemma {:induction false} TrimSpaceIsExact(s: string) returns (i: nat, j: nat)
    ensures i <= j <= |s| && TrimSpace(s) == s[i..j]
    ensures forall k :: 0 <= k < i || j <= k < |s| ==> IsSpace(s[k])
    ensures i < j ==> !IsSpace(s[i]) && !IsSpace(s[j - 1])
    decreases |s|
  {
    if s != [] && IsSpace(s[0]) {
      i, j := TrimSpaceIsExact(s[1..]);
      i, j := i + 1, j + 1;
    } else if s != [] && IsSpace(s[|s| - 1]) {
      i, j := TrimSpaceIsExact(s[..|s| - 1]);
    } else {
      i, j := 0, |s|;
    }
  }

  function Shown(v: Value): string { if v.Nil? then "<nil>" else v.text }

  /** What replaceTemplateVariables makes of one match: the variable, else the nested value, else the match itself. */
  function Render(variables: Fields, s: Signal, m: string): string {
    if |m| < 4 then m
    else
      var name := TrimSpace(m[2..|m| - 2]);
      if name in variables then Shown(variables[name])
      else if NestedValue(name, s) != Nil then Shown(NestedValue(name, s))
      else m
  }

  /** What a match means: the value its trimmed name resolves to, or the match verbatim. */
  function Meaning(s: Signal, runContext: Fields, m: string): string {
    if |m| < 4 then m
    else match Resolve(s, runContext, TrimSpace(m[2..|m| - 2]))
      case Some(v) => Shown(v)
      case None => m
  }

  /** Every match is rendered from the variables in whatever order they were collected; without conflicts it becomes
      what it means. */
  method ReplaceTemplateVariables(template: string, s: Signal, runContext: Fields)
    returns (result: string, ghost metadataOrder: seq<string>, ghost valueOrder: seq<string>)
    ensures IsOrder(metadataOrder, s.metadata) && IsOrder(valueOrder, s.value)
    ensures var variables := Layers(s, runContext, metadataOrder, valueOrder);
      result == Replaced(template, 0, m => Render(variables, s, m))
    ensures !Conflict(s.metadata, "metadata.") && !Conflict(s.value, "value.")
            ==> result == Replaced(template, 0, m => Meaning(s, runContext, m))
    ensures IsMatch(template, 0, |template|) ==>
      var name := TrimSpace(template[2..|template| - 2]);
      Unclaimed(s, runContext, name) ==>
        result == if name == "signal_id" then s.id
          else if name == "signal_type" then s.signalType
          else if name == "org_id" then s.orgId
          else if name == "timestamp" then s.timestamp
          else template
    ensures IsMatch(template, 0, |template|) ==>
      var name := TrimSpace(template[2..|template| - 2]);
      name in runContext ==> result == match runContext[name] case Nil => "<nil>" case Text(text) => text
  {
    hide Meaning, Layers, Conflict, Unclaimed, TrimSpace;
    var variables;
    variables, metadataOrder, valueOrder := BuildVariableMap(s, runContext);
    result := ReplaceAllStringFunc(template, m => Render(variables, s, m));
    if !Conflict(s.metadata, "metadata.") && !Conflict(s.value, "value.") {
      forall m ensures Render(variables, s, m) == Meaning(s, runContext, m) {
        RenderIsMeaning(s, runContext, metadataOrder, valueOrder, m);
      }
      SameRender(template, 0, m => Render(variables, s, m), m => Meaning(s, runContext, m));
    }
    if IsMatch(template, 0, |template|) {
      OnlyMatch(template, m => Render(variables, s, m));
      ContextComesFirst(s, runContext, metadataOrder, valueOrder);
      if Unclaimed(s, runContext, TrimSpace(template[2..|template| - 2])) {
        RenderUnclaimed(s, runContext, metadataOrder, valueOrder, template);
      }
    }
  }

  /** What a match becomes whose name nothing claims: a field of the signal, or itself. */
  lemma RenderUnclaimed(s: Signal, runContext: Fields, metadataOrder: seq<string>, valueOrder: seq<string>, m: string)
    requires IsOrder(metadataOrder, s.metadata) && IsOrder(valueOrder, s.value)
    requires |m| >= 4 && Unclaimed(s, runContext, TrimSpace(m[2..|m| - 2]))
    ensures var name := TrimSpace(m[2..|m| - 2]);
      Render(Layers(s, runContext, metadataOrder, valueOrder), s, m) ==
        if name == "signal_id" then s.id
        else if name == "signal_type" then s.signalType
        else if name == "org_id" then s.orgId
        else if name == "timestamp" then s.timestamp
        else m
  {
    hide Layers, Unclaimed, IsOrder, TrimSpace, NestedValue;
    var name := TrimSpace(m[2..|m| - 2]);
    UnclaimedNames(s, runContext, metadataOrder, valueOrder, name);
    if NestedValue(name, s) != Nil { FallbackIsNeverUsed(s, runContext, metadataOrder, valueOrder, name); }
  }

  lemma ContextComesFirst(s: Signal, runContext: Fields, metadataOrder: seq<string>, valueOrder: seq<string>)
    requires IsOrder(metadataOrder, s.metadata) && IsOrder(valueOrder, s.value)
    ensures forall name :: name in runContext ==>
      name in Layers(s, runContext, metadataOrder, valueOrder)
      && Layers(s, runContext, metadataOrder, valueOrder)[name] == runContext[name]
  {
    hide AddFields, Builtins;
  }

  lemma OnlyMatch(template: string, render: string -> string)
    requires IsMatch(template, 0, |template|)
    ensures Replaced(template, 0, render) == render(template)
  {
    var name := template[2..|template| - 2];
    assert template == "{{" + name + "}}";
    forall k | 0 <= k < |name| ensures name[k] != '}' { assert name[k] == template[k + 2]; }
    ValueIsNotRescanned(name, render);
  }

  lemma RenderIsMeaning(s: Signal, runContext: Fields, metadataOrder: seq<string>, valueOrder: seq<string>, m: string)
    requires IsOrder(metadataOrder, s.metadata) && IsOrder(valueOrder, s.value)
    requires !Conflict(s.metadata, "metadata.") && !Conflict(s.value, "value.")
    ensures Render(Layers(s, runContext, metadataOrder, valueOrder), s, m) == Meaning(s, runContext, m)
  {
    hide Layers, Conflict, Resolve, NestedValue, IsOrder;
    if |m| >= 4 {
      var name := TrimSpace(m[2..|m| - 2]);
      PrecedenceHolds(s, runContext, metadataOrder, valueOrder, name);
      if NestedValue(name, s) != Nil { FallbackIsNeverUsed(s, runContext, metadataOrder, valueOrder, name); }
    }
  }

  lemma {:induction false} SameRender(s: string, i: nat, f: string -> string, g: string -> string)
    requires i <= |s| && forall m :: f(m) == g(m)
    ensures Replaced(s, i, f) == Replaced(s, i, g)
    decreases |s| - i
  {
    match FirstMatch(s, i)
    case None =>
    case Some((a, b)) => SameRender(s, b, f, g);
  }
}
