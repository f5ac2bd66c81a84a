/** The point-of-sale electronic stamp (TED): the DD element built from the
    order, the company, the client and the CAF (folio authorisation) whose
    range holds the order's folio, then signed with the CAF's private key.
    The RSA signature itself is a parameter `sign` applied to the DD text. */
module PosStamp {
  import opened Common
  import PosFolio
  import RutPos

  /** The parts of a CAF file the stamp copies into the DD. */
  datatype Caf = Caf(
    rng: PosFolio.CafRange,
    re: string, rs: string, td: string, fa: string,
    modulus: string, exponent: string, idk: string, frma: string)

  /** The client as the point of sale sees it; an empty document number
      counts as missing. */
  datatype Client = Client(name: string, documentNumber: string)

  datatype OrderLine = OrderLine(id: int, productName: string)

  /** What the JavaScript Date getters return (monthIndex is zero based). */
  datatype Moment = Moment(year: nat, monthIndex: nat, day: nat, hours: nat, minutes: nat, seconds: nat)

  /** The inputs timbrar reads. `signature` None stands for false. */
  datatype StampInput = StampInput(
    signature: Option<string>,
    folio: int,
    siiCode: int,
    cafFiles: seq<Caf>,
    client: Option<Client>,
    lines: seq<OrderLine>,
    validationDate: Moment,
    total: real,
    companyDocumentNumber: string)

  /** A JavaScript string is truthy when it is not empty. */
  predicate Truthy(s: Option<string>)
  {
    s.Some? && s.value != ""
  }

  /** completa_cero: a one-digit number gets a leading zero. */
  function CompletaCero(v: nat): (r: string)
    ensures |r| >= 2 && forall i :: 0 <= i < |r| ==> IsDigit(r[i])
  {
    if v < 10 then "0" + NatToString(v) else NatToString(v)
  }

  /** Lemma: below 100 the padded text has exactly two digits and reads back
      as the number. */
  lemma {:induction false} CompletaCeroTwoDigits(v: nat)
    requires v < 100
    ensures |CompletaCero(v)| == 2
    ensures forall i :: 0 <= i < 2 ==> IsDigit(CompletaCero(v)[i])
    ensures DigitsValue(CompletaCero(v)) == v
  {
    var r := CompletaCero(v);
    if v < 10 {
      assert r == ['0', DigitChar(v)];
      assert r[..1] == ['0'];
      assert DigitsValue(['0']) == 0 by {
        assert ['0'][..0] == [];
      }
    } else {
      assert NatToString(v / 10) == [DigitChar(v / 10)];
      assert r == [DigitChar(v / 10), DigitChar(v % 10)];
      NatToStringRoundTrip(v);
    }
  }

  /** format_str: JavaScript's replace with a string pattern escapes the
      first '&' only. */
  function FormatStr(s: string): (r: string)
    ensures '&' !in s ==> r == s
    ensures '&' in s ==> |r| == |s| + 4
  {
    ReplaceFirstChar(s, '&', "&amp;")
  }

  /** Lemma: only the first ampersand is escaped. */
  lemma FormatStrFirstOnly(a: string, b: string)
    requires '&' !in a
    ensures FormatStr(a + "&" + b) == a + "&amp;" + b
  {
    ReplaceFirstCharSplit(a, b, '&', "&amp;");
  }

  /** `.replace('.','').replace('.','')`: the first two dots removed. */
  function RemoveTwoDots(s: string): string
  {
    ReplaceFirstChar(ReplaceFirstChar(s, '.', ""), '.', "")
  }

  /** The issuer's RUT: two dots removed, then one leading zero dropped. */
  function RutEmisor(documentNumber: string): (r: string)
    ensures |r| <= |documentNumber|
    ensures '.' !in documentNumber && (documentNumber == [] || documentNumber[0] != '0') ==> r == documentNumber
  {
    var r := RemoveTwoDots(documentNumber);
    if |r| > 0 && r[0] == '0' then r[1..] else r
  }

  /** Lemma: on a dotted document number the issuer RUT is the plain
      "body-digit" form, without the padding zero the dotted form carries
      for bodies of seven digits. */
  lemma RutEmisorOfDotted(p: string)
    requires |p| == 9
    requires forall i :: 0 <= i < 9 ==> p[i] != '.'
    ensures RemoveTwoDots(RutPos.DottedForm(p)) == p[..8] + "-" + [p[8]]
    ensures RutEmisor(RutPos.DottedForm(p)) ==
      (if p[0] == '0' then p[1..8] else p[..8]) + "-" + [p[8]]
  {
    DottedWithoutDots(p);
    var s := p[..8] + "-" + [p[8]];
    assert s[0] == p[0];
    assert s[1..] == p[1..8] + "-" + [p[8]];
  }

  lemma DottedWithoutDots(p: string)
    requires |p| == 9
    requires forall i :: 0 <= i < 9 ==> p[i] != '.'
    ensures RemoveTwoDots(RutPos.DottedForm(p)) == p[..8] + "-" + [p[8]]
  {
    DotFreePieces(p);
    RemoveTwoDotsDotted(p[0..2], p[2..5], p[5..8], p[8]);
  }

  /** The first eight characters of a dot-free p in the pieces the dotted
      form separates. */
  lemma DotFreePieces(p: string)
    requires |p| == 9
    requires forall i :: 0 <= i < 9 ==> p[i] != '.'
    ensures '.' !in p[0..2] && '.' !in p[2..5]
    ensures p[..8] == p[0..2] + p[2..5] + p[5..8]
  {
    assert forall i :: 0 <= i < 2 ==> p[0..2][i] == p[i];
    assert forall i :: 0 <= i < 3 ==> p[2..5][i] == p[2 + i];
  }

  /** The dotted shape a.b.c-d loses its two dots. */
  lemma RemoveTwoDotsDotted(a: string, b: string, c: string, d: char)
    requires '.' !in a && '.' !in b
    ensures RemoveTwoDots(a + "." + b + "." + c + "-" + [d]) == a + b + c + "-" + [d]
  {
    var tail := c + "-" + [d];
    RegroupTail(a, b, c, d);
    RemoveTwoDotsSplit(a, b, tail);
  }

  /** Concatenation regrouped around the tail c-d. */
  lemma RegroupTail(a: string, b: string, c: string, d: char)
    ensures a + "." + b + "." + c + "-" + [d] == a + "." + b + "." + (c + "-" + [d])
    ensures a + b + (c + "-" + [d]) == a + b + c + "-" + [d]
  {
  }

  /** Lemma: the first two dots go, wherever they are; later ones stay. */
  lemma RemoveTwoDotsSplit(a: string, b: string, c: string)
    requires '.' !in a && '.' !in b
    ensures RemoveTwoDots(a + "." + b + "." + c) == a + b + c
  {
    RegroupDots(a, b, c);
    ReplaceFirstCharSplit(a, b + "." + c, '.', "");
    ReplaceFirstCharSplit(a + b, c, '.', "");
  }

  /** Concatenation regrouped around each of the two dots. */
  lemma RegroupDots(a: string, b: string, c: string)
    requires '.' !in a && '.' !in b
    ensures a + "." + b + "." + c == a + ['.'] + (b + "." + c)
    ensures a + "" + (b + "." + c) == (a + b) + ['.'] + c
    ensures (a + b) + "" + c == a + b + c
    ensures '.' !in a + b
  {
  }

  /** The product named in IT1: the last line p whose id is at most the id
      of the first line (the inner loop over all lines marks p as smallest
      until a smaller id is met, and line 0 is visited first). */
  function LastAtMostFirst(lines: seq<OrderLine>, k: nat): (r: Option<nat>)
    requires k <= |lines|
    ensures r.Some? ==> r.value < k && lines[r.value].id <= lines[0].id
    ensures r.Some? ==> forall q :: r.value < q < k ==> lines[q].id > lines[0].id
    ensures r.None? <==> k == 0
  {
    if k == 0 then None
    else if lines[k - 1].id <= lines[0].id then Some(k - 1)
    else LastAtMostFirst(lines, k - 1)
  }

  function NamedProduct(lines: seq<OrderLine>, k: nat): Option<string>
    requires k <= |lines|
  {
    match LastAtMostFirst(lines, k)
    case None => None
    case Some(p) => Some(FormatStr(lines[p].productName))
  }

  /** The text concatenated into IT1: JavaScript renders false as "false". */
  function ShowName(n: Option<string>): string
  {
    if n.Some? then n.value else "false"
  }

  function ProductName(lines: seq<OrderLine>): string
  {
    ShowName(NamedProduct(lines, |lines|))
  }

  /** The nested loop over the order lines that picks the IT1 product. */
  method PickProductName(lines: seq<OrderLine>) returns (name: string)
    ensures name == ProductName(lines)
  {
    var productName: Option<string> := None;
    var p := 0;
    while p < |lines|
      invariant 0 <= p <= |lines|
      invariant productName == NamedProduct(lines, p)
    {
      var before := productName;
      var esMenor := true;
      var i := 0;
      while i < |lines|
        invariant 0 <= i <= |lines|
        invariant esMenor <==> forall j :: 0 <= j < i ==> lines[p].id <= lines[j].id
        invariant productName ==
          if i > 0 && lines[p].id <= lines[0].id then Some(FormatStr(lines[p].productName)) else before
      {
        if lines[p].id != lines[i].id && lines[p].id > lines[i].id {
          esMenor := false;
        }
        if esMenor {
          productName := Some(FormatStr(lines[p].productName));
        }
        i := i + 1;
      }
      p := p + 1;
    }
    name := ShowName(productName);
  }

  /** Lemma: when the first line has the smallest id (lines added in order),
      IT1 names the first line's product. */
  lemma {:induction false} FirstLineNamed(lines: seq<OrderLine>, k: nat)
    requires 0 < k <= |lines|
    requires forall q :: 0 < q < |lines| ==> lines[q].id > lines[0].id
    ensures LastAtMostFirst(lines, k) == Some(0)
  {
    if k > 1 {
      FirstLineNamed(lines, k - 1);
    }
  }

  /** Lemma: the product named is not always the one with the smallest id:
      with ids 5, 3, 4 the line with id 4 is named. */
  lemma NotTheSmallestId()
    ensures LastAtMostFirst([OrderLine(5, "a"), OrderLine(3, "b"), OrderLine(4, "c")], 3) == Some(2)
  {
  }

  /** An element of the DD: <tag attrs>value</tag>. */
  datatype Field = Field(tag: string, attrs: string, value: string)

  function RenderField(f: Field): string
  {
    "<" + f.tag + f.attrs + ">" + f.value + "</" + f.tag + ">"
  }

  function Render(fs: seq<Field>): string
  {
    if fs == [] then "" else Render(fs[..|fs| - 1]) + RenderField(fs[|fs| - 1])
  }

  function Tags(fs: seq<Field>): seq<string>
  {
    seq(|fs|, i requires 0 <= i < |fs| => fs[i].tag)
  }

  /** The DA block of the CAF element, copied from the CAF file. */
  function CafBody(caf: Caf): string
  {
    "<DA>" + Render([
      Field("RE", "", caf.re),
      Field("RS", "", FormatStr(caf.rs)),
      Field("TD", "", caf.td),
      Field("RNG", "", RenderField(Field("D", "", IntToString(caf.rng.d)))
                       + RenderField(Field("H", "", IntToString(caf.rng.h)))),
      Field("FA", "", caf.fa),
      Field("RSAPK", "", RenderField(Field("M", "", caf.modulus))
                         + RenderField(Field("E", "", caf.exponent))),
      Field("IDK", "", caf.idk)])
    + "</DA>" + RenderField(Field("FRMA", " algoritmo=\"SHA1withRSA\"", caf.frma))
  }

  function DateOnly(m: Moment): string
  {
    IntToString(m.year) + "-" + CompletaCero(m.monthIndex + 1) + "-" + CompletaCero(m.day)
  }

  function TimeStamp(m: Moment): string
  {
    DateOnly(m) + "T" + CompletaCero(m.hours) + ":" + CompletaCero(m.minutes) + ":" + CompletaCero(m.seconds)
  }

  /** The receiver as the stamp records it, with the anonymous defaults. */
  function ReceiverName(c: Option<Client>): string
  {
    if c.Some? then c.value.name else "Usuario Anonimo"
  }

  function ReceiverRut(c: Option<Client>): string
  {
    if c.Some? && c.value.documentNumber != "" then c.value.documentNumber else "66666666-6"
  }

  /** The elements of the DD, in the order the stamp writes them. */
  const DdTags: seq<string> := ["RE", "TD", "F", "FE", "RR", "RSR", "MNT", "IT1", "CAF", "TSTED"]

  const DdAttrs: seq<string> := ["", "", "", "", "", "", "", "", " version=\"1.0\"", ""]

  /** The element values, in the order of DdTags. */
  function DdValues(o: StampInput, caf: Caf, productName: string): (v: seq<string>)
    ensures |v| == |DdTags|
  {
    [ RutEmisor(o.companyDocumentNumber),
      IntToString(o.siiCode),
      IntToString(o.folio),
      DateOnly(o.validationDate),
      RemoveTwoDots(ReceiverRut(o.client)),
      FormatStr(ReceiverName(o.client)),
      IntToString(JsMathRound(o.total)),
      productName,
      CafBody(caf),
      TimeStamp(o.validationDate) ]
  }

  function Tagged(values: seq<string>): (r: seq<Field>)
    requires |values| == |DdTags|
    ensures |r| == |DdTags|
    ensures forall i :: 0 <= i < |r| ==> r[i] == Field(DdTags[i], DdAttrs[i], values[i])
  {
    seq(|DdTags|, i requires 0 <= i < |DdTags| => Field(DdTags[i], DdAttrs[i], values[i]))
  }

  function DdFields(o: StampInput, caf: Caf): seq<Field>
  {
    Tagged(DdValues(o, caf, ProductName(o.lines)))
  }

  function Dd(o: StampInput, caf: Caf): string
  {
    "<DD>" + Render(DdFields(o, caf)) + "</DD>"
  }

  /** The TED: the DD followed by the signature of exactly that text. */
  function Ted(dd: string, sign: string -> string): string
  {
    "<TED version=\"1.0\">" + dd + "<FRMT algoritmo=\"SHA1withRSA\">" + sign(dd) + "</FRMT></TED>"
  }

  function Ranges(cafs: seq<Caf>): (r: seq<PosFolio.CafRange>)
    ensures |r| == |cafs| && forall i :: 0 <= i < |cafs| ==> r[i] == cafs[i].rng
  {
    seq(|cafs|, i requires 0 <= i < |cafs| => cafs[i].rng)
  }

  /** timbrar: None stands for the `false` returned when no CAF holds the
      folio. */
  function TimbrarSpec(o: StampInput, sign: string -> string): Option<string>
  {
    if Truthy(o.signature) then o.signature
    else match PosFolio.Anchor(Ranges(o.cafFiles), o.folio)
      case None => None
      case Some(k) => Some(Ted(Dd(o, o.cafFiles[k]), sign))
  }

  method Timbrar(o: StampInput, sign: string -> string) returns (r: Option<string>)
    ensures r == TimbrarSpec(o, sign)
  {
    if Truthy(o.signature) {
      return o.signature;
    }
    var k := PosFolio.FindStartCaf(Ranges(o.cafFiles), o.folio);
    if k.None? {
      return None;
    }
    var productName := PickProductName(o.lines);
    var fields := Tagged(DdValues(o, o.cafFiles[k.value], productName));
    var dd := "<DD>" + Render(fields) + "</DD>";
    r := Some(Ted(dd, sign));
  }

  /** Lemma: an order already stamped keeps its stamp, so stamping twice
      gives the first stamp back. */
  lemma StampTwiceSame(o: StampInput, sign: string -> string)
    requires TimbrarSpec(o, sign).Some?
    ensures Truthy(TimbrarSpec(o, sign))
    ensures TimbrarSpec(o.(signature := TimbrarSpec(o, sign)), sign) == TimbrarSpec(o, sign)
  {
  }

  /** Lemma: an unstamped order gets a stamp exactly when some CAF range
      holds its folio. */
  lemma StampNeedsCoveringCaf(o: StampInput, sign: string -> string)
    requires !Truthy(o.signature)
    ensures TimbrarSpec(o, sign).Some? <==>
      exists i :: 0 <= i < |o.cafFiles| && o.cafFiles[i].rng.d <= o.folio <= o.cafFiles[i].rng.h
  {
    var rs := Ranges(o.cafFiles);
    var k := PosFolio.Anchor(rs, o.folio);
    if k.None? {
      assert forall i :: 0 <= i < |o.cafFiles| ==> !(rs[i].d <= o.folio <= rs[i].h);
    } else {
      assert o.cafFiles[k.value].rng.d <= o.folio <= o.cafFiles[k.value].rng.h;
    }
  }

  /** Lemma: the stamp is made from the last CAF whose range holds the folio. */
  lemma StampUsesLastCoveringCaf(o: StampInput, sign: string -> string, i: nat)
    requires !Truthy(o.signature)
    requires i < |o.cafFiles| && o.cafFiles[i].rng.d <= o.folio <= o.cafFiles[i].rng.h
    requires forall j :: i < j < |o.cafFiles| ==> !(o.cafFiles[j].rng.d <= o.folio <= o.cafFiles[j].rng.h)
    ensures TimbrarSpec(o, sign) == Some(Ted(Dd(o, o.cafFiles[i]), sign))
  {
    var rs := Ranges(o.cafFiles);
    var k := PosFolio.Anchor(rs, o.folio);
    assert rs[i].d <= o.folio <= rs[i].h;
    assert k == Some(i);
  }

  /** Lemma: the DD always lists the same ten elements in the same order,
      the CAF element alone carrying an attribute. */
  lemma DdFieldOrder(o: StampInput, caf: Caf)
    ensures Tags(DdFields(o, caf)) == ["RE", "TD", "F", "FE", "RR", "RSR", "MNT", "IT1", "CAF", "TSTED"]
    ensures forall i :: 0 <= i < |DdTags| ==> (DdFields(o, caf)[i].attrs == "" <==> i != 8)
  {
    var fs := DdFields(o, caf);
    assert Tags(fs) == DdTags;
  }

  /** Lemma: a sale without a client is stamped for the anonymous receiver
      66666666-6, "Usuario Anonimo", both written as they are. */
  lemma AnonymousReceiver()
    ensures RemoveTwoDots(ReceiverRut(None)) == "66666666-6"
    ensures FormatStr(ReceiverName(None)) == "Usuario Anonimo"
  {
    var rut := "66666666-6";
    assert forall i :: 0 <= i < |rut| ==> rut[i] != '.';
    assert '.' !in rut;
    var name := "Usuario Anonimo";
    assert forall i :: 0 <= i < |name| ==> name[i] != '&';
    assert '&' !in name;
  }
}
