/** Reading the pieces out of a SentencePiece model: sentencePieces and onePiece of internal/asr/bpevocab.go. */
module SentencePieces {
  import opened Options
  import opened Bytes
  import opened ProtoReader

  /** A piece's text and the bits of its score. */
  datatype Piece = Piece(text: seq<Byte>, score: nat)

  const NO_PIECE: Piece := Piece([], 0)

  /** What a field of a SentencePiece message makes of the piece so far; of a repeated one the last counts. */
  function WithField(p: Piece, f: Field): Piece {
    match f
    case Bytes(1, b) => p.(text := b)
    case Fixed32(2, b) => if |b| == 4 then p.(score := U32(b)) else p
    case _ => p
  }

  /** onePiece's loop. */
  function PieceFrom(body: seq<Byte>, p: Piece): Option<Piece>
    decreases |body|
  {
    if body == [] then if p.text != [] then Some(p) else None
    else
      var t := Next(body);
      if t.None? then None else PieceFrom(t.value.rest, WithField(p, t.value.f))
  }

  /** sentencePieces' loop. */
  function PiecesFrom(data: seq<Byte>, out: seq<Piece>): Option<seq<Piece>>
    decreases |data|
  {
    if data == [] then Some(out)
    else
      var t := Next(data);
      if t.None? then None
      else if t.value.f.Bytes? && t.value.f.field == 1 then
        var p := PieceFrom(t.value.f.bytes, NO_PIECE);
        if p.None? then None else PiecesFrom(t.value.rest, out + [p.value])
      else PiecesFrom(t.value.rest, out)
  }

  method OnePiece(piece: seq<Byte>) returns (r: Option<Piece>)
    ensures r == PieceFrom(piece, NO_PIECE)
  {
    var body, p := piece, NO_PIECE;
    while |body| > 0
      invariant PieceFrom(body, p) == PieceFrom(piece, NO_PIECE)
      decreases |body|
    {
      var key := ProtoKey(body);
      if key.None? {
        return None;
      }
      var k := key.value;
      body := k.rest;
      if k.wire == 2 {
        var n := ProtoVarint(body);
        if n.None? || n.value.value > |n.value.rest| {
          return None;
        }
        if k.field == 1 {
          p := p.(text := n.value.rest[..n.value.value]);
        }
        body := n.value.rest[n.value.value..];
      } else if k.wire == 5 {
        if |body| < 4 {
          return None;
        }
        if k.field == 2 {
          p := p.(score := U32(body[..4]));
        }
        body := body[4..];
      } else if k.wire == 0 {
        var n := ProtoVarint(body);
        if n.None? {
          return None;
        }
        body := n.value.rest;
      } else if k.wire == 1 {
        if |body| < 8 {
          return None;
        }
        body := body[8..];
      } else {
        return None;
      }
    }
    return if |p.text| != 0 then Some(p) else None;
  }

  method Pieces(model: seq<Byte>) returns (r: Option<seq<Piece>>)
    ensures r == PiecesFrom(model, [])
  {
    var data, out := model, [];
    while |data| > 0
      invariant PiecesFrom(data, out) == PiecesFrom(model, [])
      decreases |data|
    {
      var key := ProtoKey(data);
      if key.None? {
        return None;
      }
      var k := key.value;
      data := k.rest;
      if k.wire == 2 {
        var n := ProtoVarint(data);
        if n.None? || n.value.value > |n.value.rest| {
          return None;
        }
        var body := n.value.rest[..n.value.value];
        data := n.value.rest[n.value.value..];
        if k.field != 1 {
          continue;
        }
        var p := OnePiece(body);
        if p.None? {
          return None;
        }
        out := out + [p.value];
      } else if k.wire == 0 {
        var n := ProtoVarint(data);
        if n.None? {
          return None;
        }
        data := n.value.rest;
      } else if k.wire == 5 {
        if |data| < 4 {
          return None;
        }
        data := data[4..];
      } else if k.wire == 1 {
        if |data| < 8 {
          return None;
        }
        data := data[8..];
      } else {
        return None;
      }
    }
    return Some(out);
  }

  // --- what was written is read ------------------------------------------------------

  predicate AllWellFormed(fields: seq<Field>) {
    fields == [] || (WellFormed(fields[0]) && AllWellFormed(fields[1..]))
  }

  /** What a SentencePiece message says. */
  function Meaning(fields: seq<Field>, p: Piece): Piece {
    if fields == [] then p else Meaning(fields[1..], WithField(p, fields[0]))
  }

  /** A piece message is read as it was meant, whatever other fields are among its own, and refused without a text. */
  lemma {:induction false} PieceReadsBack(fields: seq<Field>, p: Piece)
    requires AllWellFormed(fields)
    ensures PieceFrom(EncodeAll(fields), p) == if Meaning(fields, p).text != [] then Some(Meaning(fields, p)) else None
  {
    if fields != [] {
      FieldReadsBack(fields[0], EncodeAll(fields[1..]));
      PieceReadsBack(fields[1..], WithField(p, fields[0]));
    }
  }

  /** An entry of a model: a piece, or a field the reader has no use for. */
  datatype Entry = Listed(fields: seq<Field>) | Unknown(f: Field)

  predicate Sound(e: Entry) {
    match e
    case Listed(fields) => AllWellFormed(fields) && |EncodeAll(fields)| < TWO64
    case Unknown(f) => WellFormed(f) && !(f.Bytes? && f.field == 1)
  }

  function AsField(e: Entry): Field { if e.Listed? then Bytes(1, EncodeAll(e.fields)) else e.f }

  predicate AllSound(entries: seq<Entry>) {
    entries == [] || (Sound(entries[0]) && AllSound(entries[1..]))
  }

  function EncodeModel(entries: seq<Entry>): seq<Byte> {
    if entries == [] then [] else EncodeField(AsField(entries[0])) + EncodeModel(entries[1..])
  }

  /** The model's pieces, in order. */
  function Listing(entries: seq<Entry>): seq<Piece> {
    if entries == [] then []
    else (if entries[0].Listed? then [Meaning(entries[0].fields, NO_PIECE)] else []) + Listing(entries[1..])
  }

  /** Every listed piece has a text. */
  predicate AllSaid(entries: seq<Entry>) {
    entries == [] || ((entries[0].Listed? ==> Meaning(entries[0].fields, NO_PIECE).text != []) && AllSaid(entries[1..]))
  }

  lemma {:induction false} ModelReadsBackFrom(entries: seq<Entry>, out: seq<Piece>)
    requires AllSound(entries)
    ensures PiecesFrom(EncodeModel(entries), out) == if AllSaid(entries) then Some(out + Listing(entries)) else None
  {
    if entries == [] {
      assert out + Listing(entries) == out;
    } else {
      var e, rest := entries[0], EncodeModel(entries[1..]);
      FieldReadsBack(AsField(e), rest);
      if e.Listed? {
        PieceReadsBack(e.fields, NO_PIECE);
        var p := Meaning(e.fields, NO_PIECE);
        if p.text != [] {
          ModelReadsBackFrom(entries[1..], out + [p]);
          assert out + [p] + Listing(entries[1..]) == out + Listing(entries);
        }
      } else {
        ModelReadsBackFrom(entries[1..], out);
        assert Listing(entries) == Listing(entries[1..]);
      }
    }
  }

  /** The reader returns exactly the pieces of an encoded model, in order, whatever well-formed fields of the wire types
   *  0, 1, 2 and 5 are interleaved at either level, and refuses the model exactly when a piece has no text. */
  lemma ModelReadsBack(entries: seq<Entry>)
    requires AllSound(entries)
    ensures PiecesFrom(EncodeModel(entries), []) == if AllSaid(entries) then Some(Listing(entries)) else None
  {
    ModelReadsBackFrom(entries, []);
    assert [] + Listing(entries) == Listing(entries);
  }

  // --- the numbers of the fields ----------------------------------------------------------

  ghost predicate TextAt(fields: seq<Field>, i: int) { 0 <= i < |fields| && fields[i].Bytes? && fields[i].field == 1 }

  ghost predicate ScoreAt(fields: seq<Field>, i: int) {
    0 <= i < |fields| && fields[i].Fixed32? && fields[i].field == 2 && |fields[i].bytes| == 4
  }

  ghost predicate NoText(fields: seq<Field>, from: int) { forall j :: from <= j ==> !TextAt(fields, j) }

  ghost predicate NoScore(fields: seq<Field>, from: int) { forall j :: from <= j ==> !ScoreAt(fields, j) }

  lemma NoneInRest(fields: seq<Field>, from: int)
    requires fields != []
    ensures NoText(fields, from + 1) ==> NoText(fields[1..], from)
    ensures NoScore(fields, from + 1) ==> NoScore(fields[1..], from)
  {
    forall j ensures TextAt(fields[1..], j) ==> TextAt(fields, j + 1) {}
    forall j ensures ScoreAt(fields[1..], j) ==> ScoreAt(fields, j + 1) {}
  }

  /** A piece's text is its last length-delimited field numbered 1, and without one what was there before. */
  lemma {:induction false} TextIsTheLast(fields: seq<Field>, p: Piece, i: int)
    requires NoText(fields, i + 1) && (TextAt(fields, i) || i == -1)
    ensures Meaning(fields, p).text == if i == -1 then p.text else fields[i].bytes
  {
    if fields != [] {
      NoneInRest(fields, i);
      if i == -1 { assert !TextAt(fields, 0); }
      TextIsTheLast(fields[1..], WithField(p, fields[0]), if i == -1 then -1 else i - 1);
    }
  }

  /** Its score is its last four-byte field numbered 2. */
  lemma {:induction false} ScoreIsTheLast(fields: seq<Field>, p: Piece, i: int)
    requires NoScore(fields, i + 1) && (ScoreAt(fields, i) || i == -1)
    ensures Meaning(fields, p).score == if i == -1 then p.score else U32(fields[i].bytes)
  {
    if fields != [] {
      NoneInRest(fields, i);
      if i == -1 { assert !ScoreAt(fields, 0); }
      ScoreIsTheLast(fields[1..], WithField(p, fields[0]), if i == -1 then -1 else i - 1);
    }
  }

  /** In the bytes, a piece of a model and a piece's text stand under the key 10, and a score under 21. */
  lemma KeysInTheFile(e: Entry, text: seq<Byte>, score: seq<Byte>)
    ensures e.Listed? ==> EncodeField(AsField(e))[0] == 10
    ensures EncodeField(Bytes(1, text))[0] == 10 && EncodeField(Fixed32(2, score))[0] == 21
  {}
}
