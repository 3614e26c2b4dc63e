/**
 JSON documents, JSON Pointer (sections 3 and 4 of RFC 6901) and the `add` operation of JSON Patch
 (section 4.1 of RFC 6902).
 */
module Json {
  import opened Common

  datatype Json =
    | JNull
    | JBool(b: bool)
    | JNum(n: int)
    | JStr(s: string)
    | JArr(items: seq<Json>)
    | JObj(members: map<string, Json>)

  // ---------------------------------------------------------------- RFC 6901

  /** `~1` stands for `/` and `~0` for `~`; any other `~` is an error. */
  function Unescape(s: string): Option<string> {
    if s == "" then Some("")
    else if s[0] != '~' then
      var rest :- Unescape(s[1..]);
      Some([s[0]] + rest)
    else if |s| >= 2 && s[1] == '1' then
      var rest :- Unescape(s[2..]);
      Some("/" + rest)
    else if |s| >= 2 && s[1] == '0' then
      var rest :- Unescape(s[2..]);
      Some("~" + rest)
    else None
  }

  function EscapeChar(c: char): string {
    if c == '~' then "~0" else if c == '/' then "~1" else [c]
  }

  function Escape(t: string): string {
    if t == "" then "" else EscapeChar(t[0]) + Escape(t[1..])
  }

  lemma {:induction false} EscapeRoundTrip(t: string)
    ensures Unescape(Escape(t)) == Some(t)
    ensures '/' !in Escape(t)
  {
    if t != "" {
      EscapeRoundTrip(t[1..]);
      var e := Escape(t);
      assert t == [t[0]] + t[1..];
      if t[0] == '~' || t[0] == '/' {
        assert e[2..] == Escape(t[1..]);
      } else {
        assert e[1..] == Escape(t[1..]);
      }
    }
  }

  lemma {:induction false} EscapePlain(t: string)
    requires '~' !in t && '/' !in t
    ensures Escape(t) == t
  {
    if t != "" {
      assert t[0] in t;
      EscapePlain(t[1..]);
      assert t == [t[0]] + t[1..];
    }
  }

  lemma {:induction false} EscapeConcat(a: string, b: string)
    ensures Escape(a + b) == Escape(a) + Escape(b)
  {
    if a == "" {
      assert a + b == b;
    } else {
      assert (a + b)[1..] == a[1..] + b;
      EscapeConcat(a[1..], b);
    }
  }

  function UnescapeAll(parts: seq<string>): Option<seq<string>> {
    if parts == [] then Some([])
    else
      var first :- Unescape(parts[0]);
      var rest :- UnescapeAll(parts[1..]);
      Some([first] + rest)
  }

  function ParsePointer(p: string): Option<seq<string>> {
    if p == "" then Some([])
    else if p[0] == '/' then UnescapeAll(Split(p[1..], '/'))
    else None
  }

  /** The text of a pointer. */
  function Pointer(tokens: seq<string>): string {
    if tokens == [] then "" else "/" + Escape(tokens[0]) + Pointer(tokens[1..])
  }

  function EscapeAll(tokens: seq<string>): seq<string> {
    if tokens == [] then [] else [Escape(tokens[0])] + EscapeAll(tokens[1..])
  }

  lemma PointerTail(t: string, rest: string)
    ensures ("/" + Escape(t) + rest)[1..] == Escape(t) + rest
    ensures rest == "" ==> Escape(t) + rest == Escape(t)
    ensures rest != "" && rest[0] == '/' ==> Escape(t) + rest == Escape(t) + ['/'] + rest[1..]
  {
    hide Escape;
    var e := Escape(t);
    assert "/" + e + rest == "/" + (e + rest);
    if rest != "" && rest[0] == '/' {
      assert rest == ['/'] + rest[1..];
    }
  }

  lemma {:induction false} PointerSplits(tokens: seq<string>)
    requires tokens != []
    ensures Pointer(tokens) != "" && Pointer(tokens)[0] == '/'
    ensures Split(Pointer(tokens)[1..], '/') == EscapeAll(tokens)
  {
    hide Escape, Split;
    var t, rest := tokens[0], tokens[1..];
    EscapeRoundTrip(t);
    PointerTail(t, Pointer(rest));
    if rest == [] {
      SplitAtom(Escape(t), '/');
    } else {
      PointerSplits(rest);
      SplitCons(Escape(t), Pointer(rest)[1..], '/');
    }
  }

  lemma {:induction false} EscapeAllRoundTrip(tokens: seq<string>)
    ensures UnescapeAll(EscapeAll(tokens)) == Some(tokens)
  {
    hide Escape, Unescape;
    if tokens != [] {
      EscapeRoundTrip(tokens[0]);
      EscapeAllRoundTrip(tokens[1..]);
      assert EscapeAll(tokens)[1..] == EscapeAll(tokens[1..]);
      assert tokens == [tokens[0]] + tokens[1..];
    }
  }

  /** Every token list can be written as a pointer and read back, slashes and tildes included. */
  lemma PointerRoundTrip(tokens: seq<string>)
    ensures ParsePointer(Pointer(tokens)) == Some(tokens)
  {
    if tokens != [] {
      PointerSplits(tokens);
      EscapeAllRoundTrip(tokens);
    }
  }

  // ---------------------------------------------------------------- RFC 6902

  /** An array index has no sign and no leading zero. */
  function ArrayIndex(t: string): Option<nat> {
    if t == "0" then Some(0)
    else if t != "" && '1' <= t[0] <= '9' then Digits(t)
    else None
  }

  function Digits(t: string): Option<nat> {
    if t == "" then Some(0)
    else if '0' <= t[|t| - 1] <= '9' then
      var front :- Digits(t[..|t| - 1]);
      Some(10 * front + (t[|t| - 1] as int - '0' as int))
    else None
  }

  /** `add`: the parent must exist; an object member is set, an array element is inserted. */
  function Add(doc: Json, tokens: seq<string>, value: Json): Option<Json>
    decreases |tokens|
  {
    if tokens == [] then Some(value)
    else
      var t := tokens[0];
      match doc
      case JObj(m) =>
        if |tokens| == 1 then Some(JObj(m[t := value]))
        else if t in m then
          var inner :- Add(m[t], tokens[1..], value);
          Some(JObj(m[t := inner]))
        else None
      case JArr(items) =>
        if |tokens| == 1 then
          if t == "-" then Some(JArr(items + [value]))
          else
            var i :- ArrayIndex(t);
            if i <= |items| then Some(JArr(items[..i] + [value] + items[i..])) else None
        else
          var i :- ArrayIndex(t);
          if i < |items| then
            var inner :- Add(items[i], tokens[1..], value);
            Some(JArr(items[i := inner]))
          else None
      case _ => None
  }

  datatype PatchOperation = PatchOperation(op: string, path: string, value: Json)

  /** Only `add` is modelled; the webhook emits nothing else. */
  function ApplyOperation(doc: Json, o: PatchOperation): Option<Json> {
    if o.op != "add" then None
    else
      var tokens :- ParsePointer(o.path);
      Add(doc, tokens, o.value)
  }

  function ApplyPatch(doc: Json, ops: seq<PatchOperation>): Option<Json>
    decreases |ops|
  {
    if ops == [] then Some(doc)
    else
      var doc' :- ApplyOperation(doc, ops[0]);
      ApplyPatch(doc', ops[1..])
  }

  lemma {:induction false} ApplyPatchConcat(doc: Json, a: seq<PatchOperation>, b: seq<PatchOperation>)
    ensures ApplyPatch(doc, a + b)
            == if ApplyPatch(doc, a).None? then None else ApplyPatch(ApplyPatch(doc, a).value, b)
    decreases |a|
  {
    if a == [] {
      assert a + b == b;
    } else {
      assert (a + b)[0] == a[0] && (a + b)[1..] == a[1..] + b;
      if ApplyOperation(doc, a[0]).Some? {
        ApplyPatchConcat(ApplyOperation(doc, a[0]).value, a[1..], b);
      }
    }
  }

  /** The value the pointer refers to (section 4 of RFC 6901). */
  function Evaluate(doc: Json, tokens: seq<string>): Option<Json>
    decreases |tokens|
  {
    if tokens == [] then Some(doc)
    else
      match doc
      case JObj(m) => if tokens[0] in m then Evaluate(m[tokens[0]], tokens[1..]) else None
      case JArr(items) =>
        var i :- ArrayIndex(tokens[0]);
        if i < |items| then Evaluate(items[i], tokens[1..]) else None
      case _ => None
  }

  /** After a successful `add` the pointer refers to the added value - unless it was the `-` of an array. */
  lemma {:induction false} AddThenEvaluate(doc: Json, tokens: seq<string>, value: Json)
    requires Add(doc, tokens, value).Some?
    requires forall i | 0 <= i < |tokens| :: tokens[i] != "-"
    ensures Evaluate(Add(doc, tokens, value).value, tokens) == Some(value)
    decreases |tokens|
  {
    if tokens != [] {
      match doc
      case JObj(m) =>
        if |tokens| > 1 {
          AddThenEvaluate(m[tokens[0]], tokens[1..], value);
        }
      case JArr(items) =>
        var i := ArrayIndex(tokens[0]).value;
        if |tokens| == 1 {
          assert (items[..i] + [value] + items[i..])[i] == value;
        } else {
          AddThenEvaluate(items[i], tokens[1..], value);
        }
      case _ =>
    }
  }

  // ---------------------------------------------------------------- reading a document

  function Digit(d: nat): char
    requires d < 10
  {
    '0' + d as char
  }

  /** The index of an array element as a reference token. */
  function Numeral(n: nat): string {
    if n < 10 then [Digit(n)] else Numeral(n / 10) + [Digit(n % 10)]
  }

  lemma {:induction false} NumeralReads(n: nat)
    ensures Numeral(n) != "" && Digits(Numeral(n)) == Some(n)
    ensures n > 0 ==> '1' <= Numeral(n)[0] <= '9'
  {
    if n >= 10 {
      NumeralReads(n / 10);
      assert Numeral(n)[..|Numeral(n)| - 1] == Numeral(n / 10);
    } else {
      assert Numeral(n)[..0] == "";
    }
  }

  lemma NumeralIsIndex(n: nat)
    ensures ArrayIndex(Numeral(n)) == Some(n)
  {
    NumeralReads(n);
    if n == 0 {
      assert Numeral(0) == "0";
    } else {
      assert Numeral(n)[0] != "0"[0];
    }
  }

  lemma EvaluateMember(m: map<string, Json>, k: string, rest: seq<string>)
    ensures Evaluate(JObj(m), [k] + rest) == if k in m then Evaluate(m[k], rest) else None
  {
    assert ([k] + rest)[1..] == rest;
  }

  lemma EvaluateItem(items: seq<Json>, i: nat, rest: seq<string>)
    requires i < |items|
    ensures Evaluate(JArr(items), [Numeral(i)] + rest) == Evaluate(items[i], rest)
  {
    NumeralIsIndex(i);
    assert ([Numeral(i)] + rest)[1..] == rest;
  }
}
