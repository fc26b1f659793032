/**
 The text codec of the remote editor (crates/nexus-sftp/src/editor.rs): UTF-8 text
 with an optional byte-order mark and one newline convention. UTF-8 itself is
 section 3 of RFC 3629.
 */
module EditorCodec {
  import opened Common

  /** A Unicode scalar value. */
  type Scalar = c: int | 0 <= c < 0x11_0000 && !(0xD800 <= c < 0xE000)

  type Text = seq<Scalar>

  datatype Newline = Lf | CrLf

  datatype Document = Document(text: Text, newline: Newline, bom: bool)

  const NUL: Scalar := 0
  const LF: Scalar := 10
  const CR: Scalar := 13
  const BOM: Scalar := 0xFEFF
  const BOM_BYTES: seq<byte> := [0xEF, 0xBB, 0xBF]

  // ----- UTF-8 -----

  function EncodeScalar(c: Scalar): (r: seq<byte>)
    ensures 1 <= |r| <= 4
  {
    if c < 0x80 then
      [c as byte]
    else if c < 0x800 then
      [(0xC0 + c / 64) as byte, Tail(c % 64)]
    else if c < 0x1_0000 then
      [(0xE0 + c / 64 / 64) as byte, Tail(c / 64 % 64), Tail(c % 64)]
    else
      [(0xF0 + c / 64 / 64 / 64) as byte, Tail(c / 64 / 64 % 64), Tail(c / 64 % 64), Tail(c % 64)]
  }

  function Tail(low: int): byte
    requires 0 <= low < 64
  {
    (0x80 + low) as byte
  }

  function Utf8(t: Text): seq<byte> {
    if t == [] then [] else EncodeScalar(t[0]) + Utf8(t[1..])
  }

  /** Byte `i` of `b` as a continuation byte. */
  predicate Continues(b: seq<byte>, i: nat) {
    i < |b| && 0x80 <= b[i] < 0xC0
  }

  function Low(b: seq<byte>, i: nat): (r: int)
    requires Continues(b, i)
    ensures 0 <= r < 64
  {
    b[i] as int - 0x80
  }

  /** Appends six bits. */
  function Shift(high: nat, low: int): (r: nat)
    requires 0 <= low < 64
    ensures r / 64 == high && r % 64 == low
  {
    high * 64 + low
  }

  /** The scalar at the front of `b`, unless the bytes are ill-formed, overlong or a surrogate. */
  function DecodeScalar(b: seq<byte>): Option<Scalar>
    requires b != []
  {
    var first := b[0] as int;
    if first < 0x80 then
      Some(first)
    else if 0xC2 <= first < 0xE0 && Continues(b, 1) then
      Some(Shift(first - 0xC0, Low(b, 1)))
    else if 0xE0 <= first < 0xF0 && Continues(b, 1) && Continues(b, 2) then
      var c := Shift(Shift(first - 0xE0, Low(b, 1)), Low(b, 2));
      if c < 0x800 || 0xD800 <= c < 0xE000 then None else Some(c)
    else if 0xF0 <= first < 0xF5 && Continues(b, 1) && Continues(b, 2) && Continues(b, 3) then
      var c := Shift(Shift(Shift(first - 0xF0, Low(b, 1)), Low(b, 2)), Low(b, 3));
      if c < 0x1_0000 || c >= 0x11_0000 then None else Some(c)
    else
      None
  }

  lemma DecodedScalarEncodes(b: seq<byte>)
    requires b != [] && DecodeScalar(b).Some?
    ensures EncodeScalar(DecodeScalar(b).value) <= b
  {
    hide Shift;
  }

  lemma EncodedScalarDecodes(c: Scalar, rest: seq<byte>)
    ensures DecodeScalar(EncodeScalar(c) + rest) == Some(c)
  {
    hide Shift;
    if c >= 0x80 { ShiftBack(c); }
    if c >= 0x800 { ShiftBack(c / 64); }
    if c >= 0x1_0000 { ShiftBack(c / 64 / 64); }
  }

  lemma ShiftBack(c: nat)
    ensures Shift(c / 64, c % 64) == c
  {
  }

  function FromUtf8(b: seq<byte>): Option<Text>
    decreases |b|
  {
    if b == [] then Some([])
    else
      match DecodeScalar(b)
      case None => None
      case Some(c) =>
        var n := |EncodeScalar(c)|;
        if n > |b| then None
        else
          match FromUtf8(b[n..])
          case None => None
          case Some(t) => Some([c] + t)
  }

  /** Decoding is the inverse of encoding, and accepts nothing else. */
  lemma {:induction false} Utf8RoundTrip(b: seq<byte>, t: Text)
    ensures FromUtf8(b) == Some(t) <==> Utf8(t) == b
    decreases |b| + |t|
  {
    if b != [] && DecodeScalar(b).Some? {
      var c := DecodeScalar(b).value;
      var n := |EncodeScalar(c)|;
      DecodedScalarEncodes(b);
      assert b == EncodeScalar(c) + b[n..];
      if t != [] {
        Utf8RoundTrip(b[n..], t[1..]);
        assert t == [t[0]] + t[1..];
        if Utf8(t) == b {
          EncodedScalarDecodes(t[0], Utf8(t[1..]));
        }
      }
    } else if t != [] {
      EncodedScalarDecodes(t[0], Utf8(t[1..]));
    }
  }

  // ----- Line breaks -----

  /** Every CR LF of `t`, from left to right, replaced by `with`. */
  function ReplaceCrLf(t: Text, with: Text): Text {
    if t == [] then []
    else if |t| >= 2 && t[0] == CR && t[1] == LF then with + ReplaceCrLf(t[2..], with)
    else [t[0]] + ReplaceCrLf(t[1..], with)
  }

  predicate HasCrLf(t: Text) {
    exists i :: 0 <= i < |t| - 1 && t[i] == CR && t[i + 1] == LF
  }

  /** Every LF of `t` replaced by CR LF. */
  function ExpandLf(t: Text): Text {
    if t == [] then []
    else (if t[0] == LF then [CR, LF] else [t[0]]) + ExpandLf(t[1..])
  }

  // ----- The codec -----

  function DecodeText(bytes: seq<byte>): Result<Document> {
    if |bytes| > MAX_EDITOR_BYTES then Err(FilePolicy)
    else
      var bom := BOM_BYTES <= bytes;
      var body := if bom then bytes[3..] else bytes;
      match FromUtf8(body)
      case None => Err(FilePolicy)
      case Some(original) =>
        if NUL in original then Err(FilePolicy)
        else
          var hasCrLf := HasCrLf(original);
          var withoutCrLf := ReplaceCrLf(original, []);
          if CR in withoutCrLf || (hasCrLf && LF in withoutCrLf) then Err(FilePolicy)
          else
            Ok(Document(if hasCrLf then ReplaceCrLf(original, [LF]) else original,
                        if hasCrLf then CrLf else Lf, bom))
  }

  function BomSize(bom: bool): nat {
    if bom then 3 else 0
  }

  function Body(d: Document): Text {
    if d.newline.Lf? then d.text else ExpandLf(d.text)
  }

  function EncodeText(d: Document): Result<seq<byte>> {
    if |Utf8(d.text)| + BomSize(d.bom) > MAX_EDITOR_BYTES then Err(FilePolicy)
    else if NUL in d.text || CR in d.text then Err(FilePolicy)
    else
      var body := Utf8(Body(d));
      if |body| + BomSize(d.bom) > MAX_EDITOR_BYTES then Err(FilePolicy)
      else Ok((if d.bom then BOM_BYTES else []) + body)
  }

  // ----- Lemmas on line breaks -----

  lemma {:induction false} Utf8Concat(a: Text, b: Text)
    ensures Utf8(a + b) == Utf8(a) + Utf8(b)
  {
    if a == [] {
      assert a + b == b;
    } else {
      Utf8Concat(a[1..], b);
      assert (a + b)[1..] == a[1..] + b;
    }
  }

  lemma {:induction false} ExpandGrows(t: Text)
    ensures |Utf8(t)| <= |Utf8(ExpandLf(t))|
  {
    if t != [] {
      ExpandGrows(t[1..]);
      Utf8Concat(if t[0] == LF then [CR, LF] else [t[0]], ExpandLf(t[1..]));
      Utf8Concat([CR], [LF]);
    }
  }

  /** Where every line break is CR LF, collapsing and expanding again changes nothing. */
  lemma {:induction false} ExpandCollapsed(t: Text)
    requires CR !in ReplaceCrLf(t, []) && LF !in ReplaceCrLf(t, [])
    ensures ExpandLf(ReplaceCrLf(t, [LF])) == t
    ensures CR !in ReplaceCrLf(t, [LF])
    ensures NUL !in t ==> NUL !in ReplaceCrLf(t, [LF])
  {
    if t != [] {
      if |t| >= 2 && t[0] == CR && t[1] == LF {
        ExpandCollapsed(t[2..]);
        assert t == [CR, LF] + t[2..];
      } else {
        ExpandCollapsed(t[1..]);
        assert t[0] in ReplaceCrLf(t, []);
      }
    }
  }

  lemma HasCrLfLater(t: Text)
    requires t != []
    ensures HasCrLf(t[1..]) ==> HasCrLf(t)
  {
    if HasCrLf(t[1..]) {
      var i :| 0 <= i < |t| - 2 && t[1..][i] == CR && t[1..][i + 1] == LF;
      assert t[i + 1] == CR && t[i + 1 + 1] == LF;
    }
  }

  /** Without CR LF there is nothing to replace. */
  lemma {:induction false} ReplaceNothing(t: Text, with: Text)
    requires !HasCrLf(t)
    ensures ReplaceCrLf(t, with) == t
  {
    if t != [] {
      HasCrLfLater(t);
      ReplaceNothing(t[1..], with);
    }
  }

  /** Expanded text collapses back, whatever the line breaks are then replaced by. */
  lemma {:induction false} CollapseExpanded(t: Text)
    requires CR !in t
    ensures ReplaceCrLf(ExpandLf(t), [LF]) == t
    ensures CR !in ReplaceCrLf(ExpandLf(t), []) && LF !in ReplaceCrLf(ExpandLf(t), [])
  {
    if t != [] {
      CollapseExpanded(t[1..]);
      var rest := ExpandLf(t[1..]);
      assert t[0] == LF ==> ExpandLf(t)[2..] == rest;
      assert t[0] != LF ==> ExpandLf(t)[1..] == rest;
    }
  }

  lemma {:induction false} ExpandedBreaks(t: Text)
    requires CR !in t
    ensures HasCrLf(ExpandLf(t)) <==> LF in t
    ensures NUL in ExpandLf(t) <==> NUL in t
    ensures LF !in t ==> ExpandLf(t) == t
  {
    if t != [] {
      ExpandedBreaks(t[1..]);
      if t[0] == LF {
        assert ExpandLf(t)[0] == CR && ExpandLf(t)[0 + 1] == LF;
      } else {
        HasCrLfAfter(t[0], ExpandLf(t[1..]));
      }
    }
  }

  lemma HasCrLfAfter(c: Scalar, t: Text)
    requires c != CR
    ensures HasCrLf([c] + t) <==> HasCrLf(t)
  {
    var u := [c] + t;
    if HasCrLf(t) {
      var i :| 0 <= i < |t| - 1 && t[i] == CR && t[i + 1] == LF;
      assert u[i + 1] == CR && u[i + 1 + 1] == LF;
    }
    if HasCrLf(u) {
      var i :| 0 <= i < |u| - 1 && u[i] == CR && u[i + 1] == LF;
      assert t[i - 1] == CR && t[i - 1 + 1] == LF;
    }
  }

  /** Bytes start with the mark exactly when the text does. */
  lemma BomIsAScalar(t: Text)
    ensures BOM_BYTES <= Utf8(t) <==> t != [] && t[0] == BOM
    ensures t != [] && t[0] == BOM ==> Utf8(t)[3..] == Utf8(t[1..])
  {
    assert EncodeScalar(BOM) == BOM_BYTES;
    if BOM_BYTES <= Utf8(t) {
      var b := Utf8(t);
      assert b == EncodeScalar(BOM) + b[3..];
      EncodedScalarDecodes(BOM, b[3..]);
      EncodedScalarDecodes(t[0], Utf8(t[1..]));
    }
  }

  // ----- Round trips -----

  /** What the editor opened it writes back byte for byte, if the text is not changed. */
  lemma DecodeThenEncode(bytes: seq<byte>)
    requires DecodeText(bytes).Ok?
    ensures EncodeText(DecodeText(bytes).value) == Ok(bytes)
  {
    hide FromUtf8, Utf8, HasCrLf, ReplaceCrLf, ExpandLf;
    var d := DecodeText(bytes).value;
    var body := if d.bom then bytes[3..] else bytes;
    var original := FromUtf8(body).value;
    Utf8RoundTrip(body, original);
    if HasCrLf(original) {
      ExpandCollapsed(original);
    } else {
      ReplaceNothing(original, []);
    }
    assert Body(d) == original;
    assert bytes == (if d.bom then BOM_BYTES else []) + body;
    ExpandGrows(d.text);
  }

  /** The text starts with U+FEFF and no mark is written in front of it. */
  predicate BomIsAmbiguous(d: Document) {
    !d.bom && d.text != [] && d.text[0] == BOM
  }

  /** What is read back after `d` was written. */
  function ReadBack(d: Document): Document {
    Document(if BomIsAmbiguous(d) then d.text[1..] else d.text,
             if d.newline.CrLf? && LF in d.text then CrLf else Lf,
             d.bom || BomIsAmbiguous(d))
  }

  lemma {:induction false} BodyStart(d: Document)
    requires CR !in d.text
    ensures Body(d) != [] && Body(d)[0] == BOM <==> d.text != [] && d.text[0] == BOM
    ensures d.text != [] && d.text[0] == BOM ==> Body(d)[1..] == Body(d.(text := d.text[1..]))
  {
  }

  lemma BodyDecodes(d: Document)
    requires CR !in d.text && NUL !in d.text
    ensures NUL !in Body(d)
    ensures HasCrLf(Body(d)) <==> d.newline.CrLf? && LF in d.text
    ensures CR !in ReplaceCrLf(Body(d), [])
    ensures HasCrLf(Body(d)) ==> LF !in ReplaceCrLf(Body(d), []) && ReplaceCrLf(Body(d), [LF]) == d.text
    ensures !HasCrLf(Body(d)) ==> Body(d) == d.text
  {
    if d.newline.CrLf? {
      CollapseExpanded(d.text);
      ExpandedBreaks(d.text);
    } else {
      ReplaceNothing(d.text, []);
    }
  }

  lemma EncodeThenDecode(d: Document)
    requires EncodeText(d).Ok?
    ensures DecodeText(EncodeText(d).value) == Ok(ReadBack(d))
  {
    hide FromUtf8, Utf8, HasCrLf, ReplaceCrLf, ExpandLf, Body;
    var bytes := EncodeText(d).value;
    var e := if BomIsAmbiguous(d) then d.(text := d.text[1..]) else d;
    BodyStart(d);
    BomIsAScalar(Body(d));
    BodyDecodes(e);
    var body := if BOM_BYTES <= bytes then bytes[3..] else bytes;
    assert body == Utf8(Body(e));
    Utf8RoundTrip(body, Body(e));
    if BomIsAmbiguous(d) { assert d.text == [BOM] + d.text[1..]; }
  }

  /** The encoder as it fills its byte vector. */
  method WriteText(d: Document) returns (r: Result<seq<byte>>)
    ensures r == EncodeText(d)
    ensures r.Ok? ==> DecodeText(r.value) == Ok(ReadBack(d))
    ensures r.Ok? <==> NUL !in d.text && CR !in d.text && |Utf8(Body(d))| + BomSize(d.bom) <= MAX_EDITOR_BYTES
  {
    ExpandGrows(d.text);
    if EncodeText(d).Ok? { EncodeThenDecode(d); }
    if |Utf8(d.text)| + BomSize(d.bom) > MAX_EDITOR_BYTES { return Err(FilePolicy); }
    if NUL in d.text || CR in d.text { return Err(FilePolicy); }
    var body := Utf8(Body(d));
    if |body| + BomSize(d.bom) > MAX_EDITOR_BYTES { return Err(FilePolicy); }
    var bytes := [];
    if d.bom { bytes := bytes + BOM_BYTES; }
    assert bytes == if d.bom then BOM_BYTES else [];
    bytes := bytes + body;
    return Ok(bytes);
  }

  /** A document survives writing and reading exactly in these cases. */
  lemma SurvivesExactlyWhen(d: Document)
    requires EncodeText(d).Ok?
    ensures var r := DecodeText(EncodeText(d).value);
      && r.Ok?
      && (r.value == d <==> !BomIsAmbiguous(d) && (d.newline.Lf? || LF in d.text))
      && (r.value.text == d.text <==> !BomIsAmbiguous(d))
      && (r.value.newline == d.newline <==> d.newline.Lf? || LF in d.text)
  {
    hide DecodeText, EncodeText;
    EncodeThenDecode(d);
  }

  /** The files that open are exactly those that some document is written as. */
  lemma OpensExactlyWhatIsWritten(bytes: seq<byte>)
    ensures DecodeText(bytes).Ok? <==> exists d :: EncodeText(d) == Ok(bytes)
  {
    if DecodeText(bytes).Ok? { DecodeThenEncode(bytes); }
    if d :| EncodeText(d) == Ok(bytes) { EncodeThenDecode(d); }
  }
}
