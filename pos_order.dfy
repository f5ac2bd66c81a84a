/** The point-of-sale order and session as the Chilean localisation extends
    them: the order's document sequence, folio, stamp and order number, their
    JSON round trip, and the session counters that push_order advances. */
module PosOrder {
  import opened Common
  import PosFolio
  import PosStamp

  datatype DocClass = DocClass(id: int, siiCode: int)

  /** An ir.sequence as the point of sale loads it, with its CAF files. */
  datatype Sequence = Sequence(id: int, docClass: DocClass, cafFiles: seq<PosStamp.Caf>)

  /** What the order's sequence_id holds: false/undefined, a sequence, or
      (after init_from_JSON) whatever the document-class table holds under
      the saved id. */
  datatype SeqRef = NoSequence | SeqObj(s: Sequence) | ClassObj(c: DocClass)

  /** The configuration's `marcar` choice of default document. */
  datatype Marcar = MarcarBoleta | MarcarBoletaExenta | MarcarFactura | MarcarFacturaExenta | MarcarOther

  datatype PosConfig = PosConfig(
    marcar: Marcar,
    secuenciaBoleta: Option<Sequence>,
    secuenciaBoletaExenta: Option<Sequence>,
    secuenciaFacturaAfecta: Option<Sequence>,
    secuenciaFacturaExenta: Option<Sequence>)

  /** The part of the JSON the localisation writes and reads; false is None. */
  datatype OrderJson = OrderJson(
    sequenceId: Option<int>,
    siiDocumentNumber: Option<int>,
    signature: Option<string>,
    ordenNumero: Option<int>,
    finalized: bool)

  /** The order fields that take part in the JSON round trip. */
  datatype OrderFields = OrderFields(
    sequence: SeqRef,
    siiDocumentNumber: Option<int>,
    signature: Option<string>,
    ordenNumero: Option<int>,
    finalized: bool)

  function SequenceIdOf(r: SeqRef): Option<int>
  {
    match r
    case NoSequence => None
    case SeqObj(s) => Some(s.id)
    case ClassObj(c) => Some(c.id)
  }

  function OptionalSequence(s: Option<Sequence>): SeqRef
  {
    if s.Some? then SeqObj(s.value) else NoSequence
  }

  /** export_as_JSON: an order without a sequence saves `false`, one with
      a sequence (or a document class) saves its id. */
  function Export(f: OrderFields): (j: OrderJson)
    ensures j.sequenceId.None? <==> f.sequence.NoSequence?
    ensures f.sequence.SeqObj? ==> j.sequenceId == Some(f.sequence.s.id)
  {
    OrderJson(SequenceIdOf(f.sequence), f.siiDocumentNumber, f.signature, f.ordenNumero, f.finalized)
  }

  /** init_from_JSON: a truthy saved sequence id is looked up in the table of
      document classes; the four other fields are copied. */
  function Load(f: OrderFields, j: OrderJson, secuencias: map<int, DocClass>): (g: OrderFields)
    ensures g.sequence.SeqObj? ==> g.sequence == f.sequence
    ensures j.sequenceId.None? || j.sequenceId.value == 0 ==> g.sequence == f.sequence
  {
    var seqRef :=
      if j.sequenceId.Some? && j.sequenceId.value != 0 then
        (if j.sequenceId.value in secuencias then ClassObj(secuencias[j.sequenceId.value]) else NoSequence)
      else f.sequence;
    OrderFields(seqRef, j.siiDocumentNumber, j.signature, j.ordenNumero, j.finalized)
  }

  /** Lemma: exporting and loading back keeps the folio, the stamp, the order
      number and the finalized flag, whatever the order held before. */
  lemma ExportLoadKeepsFields(f: OrderFields, g: OrderFields, secuencias: map<int, DocClass>)
    ensures var h := Load(g, Export(f), secuencias);
      h.siiDocumentNumber == f.siiDocumentNumber && h.signature == f.signature
      && h.ordenNumero == f.ordenNumero && h.finalized == f.finalized
  {
  }

  /** Lemma: loading then exporting gives the JSON back, except the sequence
      id: a truthy one becomes the id of what the document-class table holds
      under it (none when it holds nothing), a falsy one leaves the order's. */
  lemma LoadExportRoundTrip(f: OrderFields, j: OrderJson, secuencias: map<int, DocClass>)
    ensures Export(Load(f, j, secuencias)).(sequenceId := j.sequenceId) == j
    ensures var e := Export(Load(f, j, secuencias));
      if j.sequenceId.Some? && j.sequenceId.value != 0 then
        e.sequenceId == (if j.sequenceId.value in secuencias then Some(secuencias[j.sequenceId.value].id) else None)
      else e.sequenceId == SequenceIdOf(f.sequence)
  {
  }

  /** Lemma: the saved id is a sequence id but the table is keyed by
      document class, so a loaded order never holds a sequence object
      when the saved id is truthy. */
  lemma LoadNeverRestoresSequence(f: OrderFields, j: OrderJson, secuencias: map<int, DocClass>)
    requires j.sequenceId.Some? && j.sequenceId.value != 0
    ensures !Load(f, j, secuencias).sequence.SeqObj?
  {
  }

  class Order {
    var boleta: bool
    var toInvoice: bool
    var sequence: SeqRef
    var siiDocumentNumber: Option<int>
    var signature: Option<string>
    var ordenNumero: Option<int>
    var finalized: bool
    var client: Option<PosStamp.Client>
    var lines: seq<PosStamp.OrderLine>
    var validationDate: PosStamp.Moment
    var total: real

    function Fields(): OrderFields
      reads this
    {
      OrderFields(sequence, siiDocumentNumber, signature, ordenNumero, finalized)
    }

    /** initialize: the base order (loaded from `json` when there is one),
        then unset_boleta, the document chosen by the configuration and,
        for a boleta, the stamp, folio and order-number defaults. */
    constructor (json: Option<OrderJson>, cfg: PosConfig, secuencias: map<int, DocClass>,
                 numeroOrdenes: int, client: Option<PosStamp.Client>,
                 lines: seq<PosStamp.OrderLine>, validationDate: PosStamp.Moment, total: real)
      ensures boleta <==> ((cfg.marcar == MarcarBoleta && cfg.secuenciaBoleta.Some?)
                           || (cfg.marcar == MarcarBoletaExenta && cfg.secuenciaBoletaExenta.Some?))
      ensures toInvoice <==> cfg.marcar == MarcarFactura || cfg.marcar == MarcarFacturaExenta
      ensures sequence == ConfiguredSequence(cfg)
      ensures siiDocumentNumber == None
      ensures ordenNumero == (if boleta then Some(if numeroOrdenes <= 0 then 1 else numeroOrdenes) else None)
      ensures signature == (if json.Some? then
                              (if boleta && !PosStamp.Truthy(json.value.signature) then None else json.value.signature)
                            else None)
      ensures finalized == (json.Some? && json.value.finalized)
      ensures this.client == client && this.lines == lines
      ensures this.validationDate == validationDate && this.total == total
    {
      boleta := false;
      toInvoice := false;
      sequence := NoSequence;
      siiDocumentNumber := None;
      signature := None;
      ordenNumero := None;
      finalized := false;
      this.client := client;
      this.lines := lines;
      this.validationDate := validationDate;
      this.total := total;
      new;
      if json.Some? {
        InitFromJson(json.value, secuencias);
      }
      UnsetBoleta();
      match cfg.marcar {
        case MarcarBoleta =>
          if cfg.secuenciaBoleta.Some? {
            boleta := true;
            sequence := SeqObj(cfg.secuenciaBoleta.value);
          }
        case MarcarBoletaExenta =>
          if cfg.secuenciaBoletaExenta.Some? {
            boleta := true;
            sequence := SeqObj(cfg.secuenciaBoletaExenta.value);
          }
        case MarcarFactura =>
          toInvoice := true;
          sequence := OptionalSequence(cfg.secuenciaFacturaAfecta);
        case MarcarFacturaExenta =>
          toInvoice := true;
          sequence := OptionalSequence(cfg.secuenciaFacturaExenta);
        case MarcarOther =>
      }
      if boleta {
        if !PosStamp.Truthy(signature) {
          signature := None;
        }
        ordenNumero := Some(if numeroOrdenes <= 0 then 1 else numeroOrdenes);
      }
    }

    /** init_from_JSON. */
    method InitFromJson(j: OrderJson, secuencias: map<int, DocClass>)
      modifies this
      ensures Fields() == Load(old(Fields()), j, secuencias)
      ensures boleta == old(boleta) && toInvoice == old(toInvoice)
      ensures client == old(client) && lines == old(lines)
      ensures validationDate == old(validationDate) && total == old(total)
    {
      if j.sequenceId.Some? && j.sequenceId.value != 0 {
        sequence := if j.sequenceId.value in secuencias then ClassObj(secuencias[j.sequenceId.value]) else NoSequence;
      }
      siiDocumentNumber := j.siiDocumentNumber;
      signature := j.signature;
      ordenNumero := j.ordenNumero;
      finalized := j.finalized;
    }

    /** export_as_JSON. */
    function ExportAsJson(): (j: OrderJson)
      reads this
      ensures j == Export(Fields())
    {
      OrderJson(SequenceIdOf(sequence), siiDocumentNumber, signature, ordenNumero, finalized)
    }

    /** unset_boleta: no document, no folio, no order number. */
    method UnsetBoleta()
      modifies this
      ensures !boleta && sequence == NoSequence && ordenNumero == None && siiDocumentNumber == None
      ensures toInvoice == old(toInvoice) && signature == old(signature) && finalized == old(finalized)
      ensures client == old(client) && lines == old(lines)
      ensures validationDate == old(validationDate) && total == old(total)
    {
      sequence := NoSequence;
      boleta := false;
      ordenNumero := None;
      siiDocumentNumber := None;
    }

    /** The folio push_order writes, and the stamp when the rounded total
        is positive. */
    method SetFolioAndStamp(folio: int, input: PosStamp.StampInput, sign: string -> string)
      modifies this
      ensures siiDocumentNumber == Some(folio)
      ensures signature == if JsMathRound(total) > 0 then PosStamp.TimbrarSpec(input, sign) else old(signature)
      ensures boleta == old(boleta) && sequence == old(sequence) && ordenNumero == old(ordenNumero)
      ensures client == old(client) && lines == old(lines) && total == old(total)
      ensures validationDate == old(validationDate) && finalized == old(finalized) && toInvoice == old(toInvoice)
    {
      siiDocumentNumber := Some(folio);
      if JsMathRound(total) > 0 {
        var stamp := PosStamp.Timbrar(input, sign);
        signature := stamp;
      }
    }

    /** es_boleta_exenta: a boleta whose sequence_id is missing, or is the
        document class loaded back by init_from_JSON, has no
        sii_document_class_id, and reading its sii_code is a TypeError. */
    function EsBoletaExenta(): (r: Result<bool>)
      reads this
      ensures !boleta ==> r == Ok(false)
      ensures boleta ==> (r.Ok? <==> sequence.SeqObj?)
      ensures r == Ok(true) <==> boleta && sequence.SeqObj? && sequence.s.docClass.siiCode == 41
    {
      if !boleta then Ok(false)
      else if sequence.SeqObj? then Ok(sequence.s.docClass.siiCode == 41)
      else Err(TypeError)
    }
  }

  /** The sequence set_tipo installs for the configured document. */
  function ConfiguredSequence(cfg: PosConfig): SeqRef
  {
    match cfg.marcar
    case MarcarBoleta => OptionalSequence(cfg.secuenciaBoleta)
    case MarcarBoletaExenta => OptionalSequence(cfg.secuenciaBoletaExenta)
    case MarcarFactura => OptionalSequence(cfg.secuenciaFacturaAfecta)
    case MarcarFacturaExenta => OptionalSequence(cfg.secuenciaFacturaExenta)
    case MarcarOther => NoSequence
  }

  /** The point-of-sale session: one order counter and one first folio per
      kind of boleta (affected 39, exempt 41). */
  class Session {
    var numeroOrdenes: int
    var numeroOrdenesExentas: int
    var startNumber: int
    var startNumberExentas: int
    var companyDocumentNumber: string

    constructor (numeroOrdenes: int, numeroOrdenesExentas: int, startNumber: int,
                 startNumberExentas: int, companyDocumentNumber: string)
      ensures this.numeroOrdenes == numeroOrdenes && this.numeroOrdenesExentas == numeroOrdenesExentas
      ensures this.startNumber == startNumber && this.startNumberExentas == startNumberExentas
      ensures this.companyDocumentNumber == companyDocumentNumber
    {
      this.numeroOrdenes := numeroOrdenes;
      this.numeroOrdenesExentas := numeroOrdenesExentas;
      this.startNumber := startNumber;
      this.startNumberExentas := startNumberExentas;
      this.companyDocumentNumber := companyDocumentNumber;
    }

    function Counter(exenta: bool): int
      reads this
    {
      if exenta then numeroOrdenesExentas else numeroOrdenes
    }

    function Start(exenta: bool): int
      reads this
    {
      if exenta then startNumberExentas else startNumber
    }

    /** get_sequence_next: the folio the next order of this sequence gets. */
    function SequenceNext(s: Option<Sequence>, fuel: nat): Result<int>
      reads this
    {
      if s.None? then Ok(0)
      else
        var exenta := s.value.docClass.siiCode == 41;
        PosFolio.NextNumber(Counter(exenta) + Start(exenta), PosStamp.Ranges(s.value.cafFiles), Start(exenta), fuel)
    }

    method GetSequenceNext(s: Option<Sequence>, fuel: nat) returns (r: Result<int>)
      ensures r == SequenceNext(s, fuel)
    {
      if s.None? {
        return Ok(0);
      }
      var ordenNumero := if s.value.docClass.siiCode == 41 then numeroOrdenesExentas else numeroOrdenes;
      var start := if s.value.docClass.siiCode == 41 then startNumberExentas else startNumber;
      r := PosFolio.GetNextNumber(ordenNumero + start, PosStamp.Ranges(s.value.cafFiles), start, fuel);
    }

    /** get_sequence_left: the folios left from the next one on. An error
        from get_sequence_next is passed on. */
    method GetSequenceLeft(s: Option<Sequence>, fuel: nat) returns (r: Result<int>)
      ensures s.None? ==> r == Ok(0)
      ensures s.Some? ==> r == match SequenceNext(s, fuel)
        case Err(e) => Err(e)
        case Ok(n) => Ok(PosFolio.SequenceLeftSpec(PosStamp.Ranges(s.value.cafFiles), n))
    {
      if s.None? {
        return Ok(0);
      }
      var next := GetSequenceNext(s, fuel);
      if next.Err? {
        return Err(next.error);
      }
      var left := PosFolio.GetSequenceLeft(next.value, PosStamp.Ranges(s.value.cafFiles));
      r := Ok(left);
    }

    /** The stamp input push_order hands to timbrar. */
    function StampOf(order: Order, folio: int, s: Sequence): PosStamp.StampInput
      reads this, order
    {
      PosStamp.StampInput(order.signature, folio, s.docClass.siiCode, s.cafFiles, order.client,
                          order.lines, order.validationDate, order.total, companyDocumentNumber)
    }

    /** push_order: a boleta takes the next order number of its kind, the
        folio get_sequence_next announced for it, and, when its rounded
        total is positive, its stamp. */
    method PushOrder(order: Order, sign: string -> string, fuel: nat) returns (r: Result<()>)
      modifies this, order
      ensures !old(order.boleta) ==> r == Ok(()) && unchanged(this) && unchanged(order)
      ensures old(order.boleta) && !old(order.sequence).SeqObj? ==>
        r == Err(TypeError) && unchanged(this) && unchanged(order)
      ensures old(order.boleta) && old(order.sequence).SeqObj? ==>
        var s := old(order.sequence).s;
        var exenta := s.docClass.siiCode == 41;
        // exactly one counter moves, by one
        && Counter(exenta) == old(Counter(exenta)) + 1
        && Counter(!exenta) == old(Counter(!exenta))
        && startNumber == old(startNumber) && startNumberExentas == old(startNumberExentas)
        && companyDocumentNumber == old(companyDocumentNumber)
        && order.ordenNumero == Some(old(Counter(exenta)) + 1)
        && r == (match old(SequenceNext(Some(s), fuel)) case Err(e) => Err(e) case Ok(_) => Ok(()))
        && (r.Ok? ==>
              order.siiDocumentNumber == Some(old(SequenceNext(Some(s), fuel)).value)
              && order.signature ==
                   (if JsMathRound(old(order.total)) > 0
                    then PosStamp.TimbrarSpec(old(StampOf(order, SequenceNext(Some(s), fuel).value, s)), sign)
                    else old(order.signature)))
      ensures order.boleta == old(order.boleta) && order.sequence == old(order.sequence)
      ensures order.client == old(order.client) && order.lines == old(order.lines)
      ensures order.total == old(order.total) && order.validationDate == old(order.validationDate)
      ensures order.finalized == old(order.finalized) && order.toInvoice == old(order.toInvoice)
    {
      if !order.boleta {
        return Ok(());
      }
      var exenta := order.EsBoletaExenta();
      if exenta.Err? {
        return Err(exenta.error);
      }
      var s := order.sequence.s;
      var ordenNumero := TakeOrderNumber(exenta.value);
      order.ordenNumero := Some(ordenNumero + 1);
      var start := if s.docClass.siiCode == 41 then startNumberExentas else startNumber;
      var folio := PosFolio.GetNextNumber(ordenNumero + start, PosStamp.Ranges(s.cafFiles), start, fuel);
      if folio.Err? {
        return Err(folio.error);
      }
      var input := StampOf(order, folio.value, s);
      order.SetFolioAndStamp(folio.value, input, sign);
      r := Ok(());
    }

    /** The order number a new order of the kind takes; the kind's counter
        moves on by one. */
    method TakeOrderNumber(exenta: bool) returns (n: int)
      modifies this
      ensures n == old(Counter(exenta))
      ensures Counter(exenta) == n + 1 && Counter(!exenta) == old(Counter(!exenta))
      ensures startNumber == old(startNumber) && startNumberExentas == old(startNumberExentas)
      ensures companyDocumentNumber == old(companyDocumentNumber)
    {
      if exenta {
        n := numeroOrdenesExentas;
        numeroOrdenesExentas := numeroOrdenesExentas + 1;
      } else {
        n := numeroOrdenes;
        numeroOrdenes := numeroOrdenes + 1;
      }
    }
  }
}
