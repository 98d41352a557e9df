/** Domain events about a request, and the producer that publishes them. */
module Eventos {
  import opened Comum
  import opened Status
  import opened Classificacao
  import opened Apolice

  /** The three concrete event classes, with the data only they carry. */
  datatype TipoEvento =
    | SolicitacaoRecebida
    | SolicitacaoValidada(tipoCliente: TipoCliente)
    | SolicitacaoRejeitada(tipoCliente: TipoCliente, motivoRejeicao: string)

  /** An event: the request's identifying data plus its kind. The event's own random id
      and creation time are not part of this model. */
  datatype SolicitacaoEvent = SolicitacaoEvent(
    solicitacaoId: Uuid,
    customerId: Uuid,
    productId: string,
    category: CategoriaSeguro,
    insuredAmount: Centavos,
    tipo: TipoEvento)
  {
    /** The status each event class fixes in its constructor. */
    function Status(): (s: StatusSolicitacao)
      ensures tipo.SolicitacaoRecebida? <==> s == Recebido
      ensures tipo.SolicitacaoValidada? <==> s == Validado
      ensures tipo.SolicitacaoRejeitada? <==> s == Rejeitada
    {
      match tipo
      case SolicitacaoRecebida => Recebido
      case SolicitacaoValidada(_) => Validado
      case SolicitacaoRejeitada(_, _) => Rejeitada
    }

    /** `getEventType`, which also selects the routing key. */
    function EventType(): (t: string)
      ensures |t| > 12 && t[..12] == "SOLICITACAO_"
    {
      match tipo
      case SolicitacaoRecebida => "SOLICITACAO_RECEBIDA"
      case SolicitacaoValidada(_) => "SOLICITACAO_VALIDADA"
      case SolicitacaoRejeitada(_, _) => "SOLICITACAO_REJEITADA"
    }
  }

  /** The event a handler builds from a stored request: id, customer, product, category and
      insured amount are always copied from the entity. */
  function EventoDe(e: SolicitacaoApolice, tipo: TipoEvento): SolicitacaoEvent
  {
    SolicitacaoEvent(e.id, e.customerId, e.productId, e.category, e.insuredAmount, tipo)
  }

  /** Events of distinct classes have distinct `eventType()` strings, the value the producer's
      routing-key switch selects on; the keys themselves are configuration properties. */
  lemma TiposDistintosRotasDistintas(a: SolicitacaoEvent, b: SolicitacaoEvent)
    requires a.Status() != b.Status()
    ensures a.EventType() != b.EventType()
  {
    assert a.EventType()[12] != b.EventType()[12] || a.EventType()[14] != b.EventType()[14];
  }

  /** What a handler does to the loaded request: its new lifecycle state, whether it calls
      `save`, and the event it publishes, if any. */
  datatype Passo = Passo(ciclo: Ciclo, salva: bool, evento: Option<TipoEvento>)

  /** The step that leaves the request alone: no change, no save, no event. */
  function SemEfeito(c: Ciclo): Passo
  {
    Passo(c, false, None)
  }

  /** The ids a handler's step adds to the repository's save log. */
  function Gravacoes(id: Uuid, p: Passo): seq<Uuid>
  {
    if p.salva then [id] else []
  }

  /** The events a handler's step on entity `e` adds to the producer's log. */
  function Publicacoes(e: SolicitacaoApolice, p: Passo): seq<SolicitacaoEvent>
  {
    if p.evento.Some? then [EventoDe(e, p.evento.value)] else []
  }

  /** `SolicitacaoEventProducer`: publishing appends to the log of sent events. */
  class ProdutorEventos {
    var publicados: seq<SolicitacaoEvent>

    constructor ()
      ensures publicados == []
    {
      publicados := [];
    }

    method PublicarEvento(evento: SolicitacaoEvent)
      modifies this
      ensures publicados == old(publicados) + [evento]
    {
      publicados := publicados + [evento];
    }
  }
}
