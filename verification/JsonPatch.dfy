/**
 JSON documents, JSON Pointers (RFC 6901) and the "add" operation of JSON
 Patch (RFC 6902 section 4.1): what the API server does with a patch.
 */
module JsonPatch {
  import opened Text
  import opened Wrappers

  datatype Json =
    | Null
    | Bool(b: bool)
    | Num(n: int)
    | Str(s: string)
    | Arr(elems: seq<Json>)
    | Obj(members: map<string, Json>)

  /** An operation of the patch; the generator only ever emits "add". */
  datatype Op = Add(path: string, value: Json)

  // ---- Pointers ---------------------------------------------------------

  /** RFC 6901 section 4: "~1" stands for '/', "~0" for '~'; any other '~' is an error. */
  function Unescape(tok: string): Option<string> {
    if tok == "" then Some("")
    else if tok[0] != '~' then
      match Unescape(tok[1..])
      case None => None
      case Some(rest) => Some([tok[0]] + rest)
    else if |tok| < 2 || (tok[1] != '0' && tok[1] != '1') then None
    else
      match Unescape(tok[2..])
      case None => None
      case Some(rest) => Some([if tok[1] == '0' then '~' else '/'] + rest)
  }

  function UnescapeAll(toks: seq<string>): Option<seq<string>> {
    if toks == [] then Some([])
    else
      match (Unescape(toks[0]), UnescapeAll(toks[1..]))
      case (Some(t), Some(ts)) => Some([t] + ts)
      case _ => None
  }

  /** RFC 6901 section 3: empty, or a sequence of '/'-prefixed reference tokens. */
  function ParsePointer(path: string): Option<seq<string>> {
    if path == "" then Some([])
    else if path[0] != '/' then None
    else UnescapeAll(Split(path[1..]))
  }

  /** RFC 6901 section 4: digits without a leading zero. */
  function ParseIndex(tok: string): Option<nat> {
    if tok != "" && AllDigits(tok) && (|tok| > 1 ==> tok[0] != '0') then Some(Value(tok)) else None
  }

  // ---- Add --------------------------------------------------------------

  /** RFC 6902 section 4.1: None when the target location cannot be reached. */
  function AddAt(doc: Json, toks: seq<string>, v: Json): Option<Json> {
    if toks == [] then Some(v)
    else if |toks| == 1 then AddMember(doc, toks[0], v)
    else
      match doc
      case Obj(m) =>
        if toks[0] !in m then None
        else (match AddAt(m[toks[0]], toks[1..], v)
              case None => None
              case Some(child) => Some(Obj(m[toks[0] := child])))
      case Arr(es) =>
        (match ParseIndex(toks[0])
         case None => None
         case Some(i) =>
           if i >= |es| then None
           else (match AddAt(es[i], toks[1..], v)
                 case None => None
                 case Some(child) => Some(Arr(es[i := child]))))
      case _ => None
  }

  function AddMember(doc: Json, tok: string, v: Json): Option<Json> {
    match doc
    case Obj(m) => Some(Obj(m[tok := v]))
    case Arr(es) =>
      if tok == "-" then Some(Arr(es + [v]))
      else (match ParseIndex(tok)
            case None => None
            case Some(i) => if i <= |es| then Some(Arr(es[..i] + [v] + es[i..])) else None)
    case _ => None
  }

  function Apply(doc: Json, op: Op): Option<Json> {
    match ParsePointer(op.path)
    case None => None
    case Some(toks) => AddAt(doc, toks, op.value)
  }

  /** RFC 6902 section 5: operations in order, the whole patch fails if one does. */
  function ApplyAll(doc: Json, ops: seq<Op>): Option<Json>
    decreases |ops|
  {
    if ops == [] then Some(doc)
    else
      match Apply(doc, ops[0])
      case None => None
      case Some(next) => ApplyAll(next, ops[1..])
  }

  // ---- Facts about pointers and patches ----------------------------------

  predicate Plain(tok: string) {
    '/' !in tok && '~' !in tok
  }

  function Render(toks: seq<string>): string {
    if toks == [] then "" else "/" + toks[0] + Render(toks[1..])
  }

  lemma {:induction false} UnescapePlain(tok: string)
    requires '~' !in tok
    ensures Unescape(tok) == Some(tok)
  {
    if tok != "" {
      UnescapePlain(tok[1..]);
      assert tok == [tok[0]] + tok[1..];
    }
  }

  lemma RenderSlash(tok: string, tail: string)
    requires tail != "" && tail[0] == '/'
    ensures tok + tail == tok + "/" + tail[1..]
  {
  }

  /** A pointer rendered from plain tokens is read back as those tokens. */
  lemma {:induction false} ParseRender(toks: seq<string>)
    requires forall t | t in toks :: Plain(t)
    ensures ParsePointer(Render(toks)) == Some(toks)
  {
    if toks != [] {
      assert Plain(toks[0]);
      UnescapePlain(toks[0]);
      SplitPlain(toks[0]);
      var tail := Render(toks[1..]);
      assert Render(toks)[1..] == toks[0] + tail;
      var pieces := Split(Render(toks)[1..]);
      if |toks| == 1 {
        assert toks[0] + tail == toks[0];
        assert pieces[1..] == [] == toks[1..];
      } else {
        ParseRender(toks[1..]);
        RenderSlash(toks[0], tail);
        SplitConcat(toks[0], tail[1..]);
        assert pieces[1..] == Split(tail[1..]);
      }
      assert pieces[0] == toks[0];
      assert UnescapeAll(pieces[1..]) == Some(toks[1..]);
      assert toks == [toks[0]] + toks[1..];
      assert UnescapeAll(pieces) == Some(toks);
    }
  }

  lemma {:induction false} ApplyAllConcat(doc: Json, a: seq<Op>, b: seq<Op>)
    ensures ApplyAll(doc, a + b) ==
            match ApplyAll(doc, a)
            case None => None
            case Some(mid) => ApplyAll(mid, b)
    decreases |a|
  {
    if a == [] {
      assert a + b == b;
    } else {
      assert (a + b)[0] == a[0] && (a + b)[1..] == a[1..] + b;
      match Apply(doc, a[0])
      case None =>
      case Some(next) => ApplyAllConcat(next, a[1..], b);
    }
  }

  /** A printed index is a plain token that the API server reads back as that index. */
  lemma IndexToken(i: nat)
    ensures Plain(Digits(i)) && ParseIndex(Digits(i)) == Some(i) && Digits(i) != "-"
  {
    ValueOfDigits(i);
    forall c | c in Digits(i) ensures c != '/' && c != '~' {
      assert IsDigit(c);
    }
    assert IsDigit(Digits(i)[0]);
  }

  // ---- Pointers in general ------------------------------------------------

  /** How a token is written (RFC 6901 section 3): '~' as "~0", '/' as "~1". */
  function Escaped(tok: string): string {
    if tok == "" then ""
    else (if tok[0] == '~' then "~0" else if tok[0] == '/' then "~1" else [tok[0]]) + Escaped(tok[1..])
  }

  lemma {:induction false} UnescapeEscaped(tok: string)
    ensures Unescape(Escaped(tok)) == Some(tok) && '/' !in Escaped(tok)
  {
    if tok != "" {
      UnescapeEscaped(tok[1..]);
      var first := if tok[0] == '~' then "~0" else if tok[0] == '/' then "~1" else [tok[0]];
      var s := Escaped(tok);
      assert s == first + Escaped(tok[1..]);
      assert s[|first|..] == Escaped(tok[1..]);
      assert tok == [tok[0]] + tok[1..];
    }
  }

  function EscapedAll(toks: seq<string>): seq<string> {
    seq(|toks|, i requires 0 <= i < |toks| => Escaped(toks[i]))
  }

  lemma {:induction false} SplitRendered(toks: seq<string>)
    requires toks != [] && forall t | t in toks :: '/' !in t
    ensures Split(Render(toks)[1..]) == toks
  {
    var tail := Render(toks[1..]);
    assert Render(toks)[1..] == toks[0] + tail;
    SplitPlain(toks[0]);
    assert forall t | t in toks[1..] :: t in toks;
    if |toks| == 1 {
      assert toks[1..] == [] && tail == "";
      assert toks[0] + tail == toks[0];
    } else {
      SplitRendered(toks[1..]);
      RenderSlash(toks[0], tail);
      SplitConcat(toks[0], tail[1..]);
      assert toks == [toks[0]] + toks[1..];
    }
  }

  lemma {:induction false} UnescapeAllEscaped(toks: seq<string>)
    ensures UnescapeAll(EscapedAll(toks)) == Some(toks)
    ensures forall t | t in EscapedAll(toks) :: '/' !in t
  {
    if toks != [] {
      UnescapeEscaped(toks[0]);
      UnescapeAllEscaped(toks[1..]);
      assert EscapedAll(toks) == [Escaped(toks[0])] + EscapedAll(toks[1..]);
      assert EscapedAll(toks)[1..] == EscapedAll(toks[1..]);
      assert toks == [toks[0]] + toks[1..];
    }
  }

  /** Any tokens written as a pointer are read back. */
  lemma PointerRoundTrip(toks: seq<string>)
    ensures ParsePointer(Render(EscapedAll(toks))) == Some(toks)
  {
    UnescapeAllEscaped(toks);
    if toks != [] {
      SplitRendered(EscapedAll(toks));
    }
  }

  /** An array index is exactly the decimal print of a number: no sign, no blank, no leading zero. */
  lemma IndexIff(tok: string, i: nat)
    ensures ParseIndex(tok) == Some(i) <==> tok == Digits(i)
  {
    ValueOfDigits(i);
    if ParseIndex(tok).Some? {
      DigitsOfValue(tok);
    }
  }

  /** An element added at an index stands there, what was before it stays, and the rest moves up by one. */
  lemma AddedElement(es: seq<Json>, i: nat, v: Json)
    ensures i <= |es| ==>
              && AddMember(Arr(es), Digits(i), v).Some? && AddMember(Arr(es), Digits(i), v).value.Arr?
              && var next := AddMember(Arr(es), Digits(i), v).value.elems;
                 |next| == |es| + 1 && next[i] == v && next[..i] == es[..i] && next[i + 1..] == es[i..]
    ensures i > |es| ==> AddMember(Arr(es), Digits(i), v) == None
  {
    IndexIff(Digits(i), i);
    ValueOfDigits(i);
    var tok := Digits(i);
    assert IsDigit(tok[0]) && !IsDigit("-"[0]);
  }
}
