/** `_strip_raw_reasoning_fields`: reasoning and tool-call fields leave an untrusted response, at every depth. */
module ReasoningFilter {
  import opened Wrappers
  import opened Json

  datatype KeyKind = Reasoning | Forbidden | Ordinary

  const RAW_REASONING_FIELDS: set<string> := {
    "chain_of_thought", "internal_reasoning", "reasoning", "reasoning_content", "reasoning_text", "reflection",
    "thinking_content", "thought", "thoughts", "tool_reasoning"
  }
  const FORBIDDEN_FIELDS: set<string> := {"delta", "function_call", "tool_calls"}

  /** How a key is treated, given Unicode normalisation, trimming and case folding as `norm`. */
  function KindOf(norm: string -> string, key: string): KeyKind {
    if norm(key) in RAW_REASONING_FIELDS then Reasoning
    else if norm(key) in FORBIDDEN_FIELDS then Forbidden
    else Ordinary
  }

  /** Text functions the sanitizer imports: key treatment, `json.dumps` and the artifact hash. */
  datatype Tools = Tools(kind: string -> KeyKind, norm: string -> string, render: Json -> string,
                         hash: string -> string)

  /** What stripping notes down. */
  datatype Notes = Notes(stripped: bool, chars: nat, digest: Option<string>, malformed: bool,
                         forbidden: seq<string>, forbiddenDigest: Option<string>, ignored: seq<string>)

  // ---------- the filter ----------

  function Strip(kind: string -> KeyKind, v: Json): Json
    decreases v
  {
    match v
    case Arr(items) => Arr(StripAll(kind, items))
    case Obj(fields) => Obj(StripFields(kind, fields))
    case _ => v
  }

  function StripAll(kind: string -> KeyKind, items: seq<Json>): (r: seq<Json>)
    ensures |r| == |items|
    decreases items
  {
    if items == [] then []
    else StripAll(kind, items[..|items| - 1]) + [Strip(kind, items[|items| - 1])]
  }

  function StripFields(kind: string -> KeyKind, fields: seq<Field>): seq<Field>
    decreases fields
  {
    if fields == [] then []
    else
      var n := |fields| - 1;
      StripFields(kind, fields[..n]) +
      if kind(fields[n].key).Ordinary? then [Field(fields[n].key, Strip(kind, fields[n].value))] else []
  }

  // ---------- the notes ----------

  function NoteDigest(tools: Tools, notes: Notes, digest: string, chars: nat): Notes {
    notes.(digest := Some(if notes.digest.None? || notes.digest.value == "" then digest
                          else tools.hash(notes.digest.value + ":" + digest)),
           chars := notes.chars + chars,
           stripped := true)
  }

  function Rendered(tools: Tools, v: Json): string {
    if v.Str? then v.s else tools.render(v)
  }

  function NoteFragment(tools: Tools, notes: Notes, v: Json): Notes {
    if v.Null? then notes
    else NoteDigest(tools, notes, tools.hash(Rendered(tools, v)), |Rendered(tools, v)|)
  }

  predicate Empty(blank: string -> bool, v: Json) {
    match v
    case Null => true
    case Str(s) => blank(s)
    case Arr(items) => items == []
    case Obj(fields) => fields == []
    case _ => false
  }

  function NoteForbidden(tools: Tools, blank: string -> bool, notes: Notes, key: string, v: Json): Notes {
    if Empty(blank, v) then notes.(ignored := notes.ignored + [tools.norm(key)])
    else notes.(forbidden := notes.forbidden + [tools.norm(key)],
                forbiddenDigest := Some(tools.hash(tools.render(v))),
                malformed := true)
  }

  function NoteAll(tools: Tools, blank: string -> bool, notes: Notes, v: Json): Notes
    decreases v
  {
    match v
    case Arr(items) => NoteItems(tools, blank, notes, items)
    case Obj(fields) => NoteFields(tools, blank, notes, fields)
    case _ => notes
  }

  function NoteItems(tools: Tools, blank: string -> bool, notes: Notes, items: seq<Json>): Notes
    decreases items
  {
    if items == [] then notes
    else
      var n := |items| - 1;
      NoteAll(tools, blank, NoteItems(tools, blank, notes, items[..n]), items[n])
  }

  function NoteFields(tools: Tools, blank: string -> bool, notes: Notes, fields: seq<Field>): Notes
    decreases fields
  {
    if fields == [] then notes
    else
      var n := |fields| - 1;
      var before := NoteFields(tools, blank, notes, fields[..n]);
      match tools.kind(fields[n].key)
      case Reasoning => NoteFragment(tools, before, fields[n].value)
      case Forbidden => NoteForbidden(tools, blank, before, fields[n].key, fields[n].value)
      case Ordinary => NoteAll(tools, blank, before, fields[n].value)
  }

  // ---------- the recursive walk that does both ----------

  method StripRawReasoningFields(tools: Tools, blank: string -> bool, v: Json, notes: Notes)
    returns (v': Json, notes': Notes)
    ensures v' == Strip(tools.kind, v)
    ensures notes' == NoteAll(tools, blank, notes, v)
    decreases v
  {
    v', notes' := v, notes;
    match v
    case Obj(fields) =>
      var kept: seq<Field> := [];
      for i := 0 to |fields|
        invariant kept == StripFields(tools.kind, fields[..i])
        invariant notes' == NoteFields(tools, blank, notes, fields[..i])
      {
        assert fields[..i + 1][..i] == fields[..i];
        match tools.kind(fields[i].key)
        case Reasoning =>
          notes' := NoteFragment(tools, notes', fields[i].value);
        case Forbidden =>
          notes' := NoteForbidden(tools, blank, notes', fields[i].key, fields[i].value);
        case Ordinary =>
          var value;
          value, notes' := StripRawReasoningFields(tools, blank, fields[i].value, notes');
          kept := kept + [Field(fields[i].key, value)];
      }
      assert fields[..|fields|] == fields;
      v' := Obj(kept);
    case Arr(items) =>
      var done: seq<Json> := [];
      for i := 0 to |items|
        invariant done == StripAll(tools.kind, items[..i])
        invariant notes' == NoteItems(tools, blank, notes, items[..i])
      {
        assert items[..i + 1][..i] == items[..i];
        var item;
        item, notes' := StripRawReasoningFields(tools, blank, items[i], notes');
        done := done + [item];
      }
      assert items[..|items|] == items;
      v' := Arr(done);
    case _ =>
  }

  // ---------- what the filter keeps and drops ----------

  /** No key at any depth is a reasoning or tool-call key. */
  ghost predicate Clean(kind: string -> KeyKind, v: Json)
    decreases v
  {
    match v
    case Arr(items) => forall i :: 0 <= i < |items| ==> Clean(kind, items[i])
    case Obj(fields) => forall i :: 0 <= i < |fields| ==> kind(fields[i].key).Ordinary? && Clean(kind, fields[i].value)
    case _ => true
  }

  lemma {:induction false} StripIsClean(kind: string -> KeyKind, v: Json)
    ensures Clean(kind, Strip(kind, v))
    decreases v
  {
    match v
    case Arr(items) => StripAllIsClean(kind, items);
    case Obj(fields) => StripFieldsIsClean(kind, fields);
    case _ =>
  }

  lemma {:induction false} StripAllIsClean(kind: string -> KeyKind, items: seq<Json>)
    ensures forall i :: 0 <= i < |items| ==> Clean(kind, StripAll(kind, items)[i])
    decreases items
  {
    if items != [] {
      StripAllIsClean(kind, items[..|items| - 1]);
      StripIsClean(kind, items[|items| - 1]);
    }
  }

  lemma {:induction false} StripFieldsIsClean(kind: string -> KeyKind, fields: seq<Field>)
    ensures Clean(kind, Obj(StripFields(kind, fields)))
    decreases fields
  {
    if fields != [] {
      StripFieldsIsClean(kind, fields[..|fields| - 1]);
      StripIsClean(kind, fields[|fields| - 1].value);
    }
  }

  /** A clean value passes the filter unchanged. */
  lemma {:induction false} StripKeepsClean(kind: string -> KeyKind, v: Json)
    requires Clean(kind, v)
    ensures Strip(kind, v) == v
    decreases v
  {
    match v
    case Arr(items) => StripAllKeepsClean(kind, items);
    case Obj(fields) => StripFieldsKeepsClean(kind, fields);
    case _ =>
  }

  lemma {:induction false} StripAllKeepsClean(kind: string -> KeyKind, items: seq<Json>)
    requires forall i :: 0 <= i < |items| ==> Clean(kind, items[i])
    ensures StripAll(kind, items) == items
    decreases items
  {
    if items != [] {
      StripAllKeepsClean(kind, items[..|items| - 1]);
      StripKeepsClean(kind, items[|items| - 1]);
    }
  }

  lemma {:induction false} StripFieldsKeepsClean(kind: string -> KeyKind, fields: seq<Field>)
    requires forall i :: 0 <= i < |fields| ==> kind(fields[i].key).Ordinary? && Clean(kind, fields[i].value)
    ensures StripFields(kind, fields) == fields
    decreases fields
  {
    if fields != [] {
      StripFieldsKeepsClean(kind, fields[..|fields| - 1]);
      StripKeepsClean(kind, fields[|fields| - 1].value);
    }
  }

  lemma StripIsIdempotent(kind: string -> KeyKind, v: Json)
    ensures Strip(kind, Strip(kind, v)) == Strip(kind, v)
  {
    StripIsClean(kind, v);
    StripKeepsClean(kind, Strip(kind, v));
  }

  /** One step into a value. */
  datatype Step = Key(key: string) | Index(i: nat)

  function At(v: Json, path: seq<Step>): Option<Json>
    decreases |path|
  {
    if path == [] then Some(v)
    else match path[0]
         case Key(k) => var m := Member(v, k); if m.None? then None else At(m.value, path[1..])
         case Index(i) => if v.Arr? && i < |v.items| then At(v.items[i], path[1..]) else None
  }

  ghost predicate OrdinaryPath(kind: string -> KeyKind, path: seq<Step>) {
    forall i :: 0 <= i < |path| && path[i].Key? ==> kind(path[i].key).Ordinary?
  }

  lemma {:induction false} StripAllAt(kind: string -> KeyKind, items: seq<Json>, i: nat)
    requires i < |items|
    ensures StripAll(kind, items)[i] == Strip(kind, items[i])
  {
    if i < |items| - 1 {
      StripAllAt(kind, items[..|items| - 1], i);
    }
  }

  lemma {:induction false} GetConcat(a: seq<Field>, b: seq<Field>, key: string)
    ensures Get(a + b, key) == if Get(a, key).Some? then Get(a, key) else Get(b, key)
  {
    if a == [] {
      assert a + b == b;
    } else {
      assert (a + b)[1..] == a[1..] + b;
      GetConcat(a[1..], b, key);
    }
  }

  lemma {:induction false} GetStripped(kind: string -> KeyKind, fields: seq<Field>, key: string)
    ensures Get(StripFields(kind, fields), key) ==
            match Get(fields, key)
            case Some(v) => if kind(key).Ordinary? then Some(Strip(kind, v)) else None
            case None => None
  {
    if fields != [] {
      var n := |fields| - 1;
      GetStripped(kind, fields[..n], key);
      assert fields == fields[..n] + [fields[n]];
      GetConcat(fields[..n], [fields[n]], key);
      GetConcat(StripFields(kind, fields[..n]),
                if kind(fields[n].key).Ordinary? then [Field(fields[n].key, Strip(kind, fields[n].value))] else [],
                key);
    }
  }

  /**
   Pathwise, the filter keeps exactly what is reachable through ordinary keys: such a path leads to the filtered
   form of what it led to before, and any other path leads nowhere.
   */
  lemma {:induction false} StripPathwise(kind: string -> KeyKind, v: Json, path: seq<Step>)
    ensures At(Strip(kind, v), path) ==
            match At(v, path)
            case Some(w) => if OrdinaryPath(kind, path) then Some(Strip(kind, w)) else None
            case None => None
    decreases |path|
  {
    if path != [] {
      assert path == [path[0]] + path[1..];
      assert OrdinaryPath(kind, path) <==> OrdinaryPath(kind, path[..1]) && OrdinaryPath(kind, path[1..]);
      match path[0]
      case Key(k) =>
        if v.Obj? {
          GetStripped(kind, v.fields, k);
          if Get(v.fields, k).Some? {
            StripPathwise(kind, Get(v.fields, k).value, path[1..]);
          }
        }
      case Index(i) =>
        if v.Arr? && i < |v.items| {
          StripAllAt(kind, v.items, i);
          StripPathwise(kind, v.items[i], path[1..]);
        }
    }
  }

  // ---------- noninterference ----------

  /** Equal up to what stands under reasoning keys. */
  ghost predicate Agree(kind: string -> KeyKind, v: Json, w: Json)
    decreases v
  {
    match v
    case Arr(items) =>
      w.Arr? && |items| == |w.items| && forall i :: 0 <= i < |items| ==> Agree(kind, items[i], w.items[i])
    case Obj(fields) =>
      w.Obj? && |fields| == |w.fields| && forall i :: 0 <= i < |fields| ==>
        && fields[i].key == w.fields[i].key
        && (kind(fields[i].key).Reasoning? || Agree(kind, fields[i].value, w.fields[i].value))
    case _ => v == w
  }

  lemma {:induction false} StripForgetsReasoning(kind: string -> KeyKind, v: Json, w: Json)
    requires Agree(kind, v, w)
    ensures Strip(kind, v) == Strip(kind, w)
    decreases v
  {
    match v
    case Arr(items) => StripAllForgets(kind, items, w.items);
    case Obj(fields) => StripFieldsForget(kind, fields, w.fields);
    case _ =>
  }

  lemma {:induction false} StripAllForgets(kind: string -> KeyKind, a: seq<Json>, b: seq<Json>)
    requires Agree(kind, Arr(a), Arr(b))
    ensures StripAll(kind, a) == StripAll(kind, b)
    decreases a
  {
    if a != [] {
      var n := |a| - 1;
      StripAllForgets(kind, a[..n], b[..n]);
      StripForgetsReasoning(kind, a[n], b[n]);
    }
  }

  lemma {:induction false} StripFieldsForget(kind: string -> KeyKind, a: seq<Field>, b: seq<Field>)
    requires Agree(kind, Obj(a), Obj(b))
    ensures StripFields(kind, a) == StripFields(kind, b)
    decreases a
  {
    if a != [] {
      var n := |a| - 1;
      StripFieldsForget(kind, a[..n], b[..n]);
      if kind(a[n].key).Ordinary? {
        StripForgetsReasoning(kind, a[n].value, b[n].value);
      }
    }
  }

  /** Notes that decide the verdict: everything but the reasoning and tool-call digests. */
  ghost predicate SameVerdict(a: Notes, b: Notes) {
    a.malformed == b.malformed && a.forbidden == b.forbidden && a.ignored == b.ignored
  }

  lemma {:induction false} NotesForgetReasoning(tools: Tools, blank: string -> bool, v: Json, w: Json, a: Notes,
                                                b: Notes)
    requires Agree(tools.kind, v, w) && SameVerdict(a, b)
    ensures SameVerdict(NoteAll(tools, blank, a, v), NoteAll(tools, blank, b, w))
    decreases v
  {
    match v
    case Arr(items) => NoteItemsForget(tools, blank, items, w.items, a, b);
    case Obj(fields) => NoteFieldsForget(tools, blank, fields, w.fields, a, b);
    case _ =>
  }

  lemma {:induction false} NoteItemsForget(tools: Tools, blank: string -> bool, x: seq<Json>, y: seq<Json>, a: Notes,
                                           b: Notes)
    requires Agree(tools.kind, Arr(x), Arr(y)) && SameVerdict(a, b)
    ensures SameVerdict(NoteItems(tools, blank, a, x), NoteItems(tools, blank, b, y))
    decreases x
  {
    if x != [] {
      var n := |x| - 1;
      NoteItemsForget(tools, blank, x[..n], y[..n], a, b);
      NotesForgetReasoning(tools, blank, x[n], y[n], NoteItems(tools, blank, a, x[..n]),
                           NoteItems(tools, blank, b, y[..n]));
    }
  }

  lemma {:induction false} NoteFieldsForget(tools: Tools, blank: string -> bool, x: seq<Field>, y: seq<Field>,
                                            a: Notes, b: Notes)
    requires Agree(tools.kind, Obj(x), Obj(y)) && SameVerdict(a, b)
    ensures SameVerdict(NoteFields(tools, blank, a, x), NoteFields(tools, blank, b, y))
    decreases x
  {
    if x != [] {
      var n := |x| - 1;
      NoteFieldsForget(tools, blank, x[..n], y[..n], a, b);
      if tools.kind(x[n].key).Ordinary? {
        NotesForgetReasoning(tools, blank, x[n].value, y[n].value,
                             NoteFields(tools, blank, a, x[..n]), NoteFields(tools, blank, b, y[..n]));
      }
    }
  }
}
