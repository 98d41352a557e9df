/** The application service: creating, cancelling and validating requests. */
module Servico {
  import opened Comum
  import opened Status
  import opened Classificacao
  import opened RegraValidacao
  import opened RequisicaoDTO
  import opened Apolice
  import opened Eventos
  import opened Repositorio
  import opened Fluxo

  const MensagemSomaExcedida := "Soma das coberturas não pode exceder o capital segurado"
  const MensagemValoresNaoPositivos := "Todos os valores de cobertura devem ser positivos"
  const ObservacaoCancelamento := "Cancelamento solicitado pelo cliente"
  const ObservacaoValidacao := "Validação aprovada pela API de Fraudes"

  function MensagemNaoCancelavel(s: StatusSolicitacao): string
  {
    "Solicitação não pode ser cancelada no estado atual: " + s.Nome()
  }

  // ---------------------------------------------------------------- response

  datatype HistoricoStatusDTO = HistoricoStatusDTO(status: StatusSolicitacao, timestamp: Instante, observacao: string)

  datatype SolicitacaoResponseDTO = SolicitacaoResponseDTO(
    id: Uuid,
    customerId: Uuid,
    productId: string,
    category: CategoriaSeguro,
    salesChannel: string,
    paymentMethod: string,
    status: StatusSolicitacao,
    createdAt: Instante,
    finishedAt: Option<Instante>,
    totalMonthlyPremiumAmount: Centavos,
    insuredAmount: Centavos,
    coverages: map<string, Centavos>,
    assistances: seq<string>,
    history: seq<HistoricoStatusDTO>)

  function HistoricoParaDTO(h: seq<HistoricoStatus>): (r: seq<HistoricoStatusDTO>)
    ensures |r| == |h|
    ensures forall i :: 0 <= i < |h| ==>
              r[i] == HistoricoStatusDTO(h[i].status, h[i].timestamp, h[i].observacao)
  {
    if h == [] then []
    else HistoricoParaDTO(h[..|h| - 1]) + [HistoricoStatusDTO(h[|h| - 1].status, h[|h| - 1].timestamp, h[|h| - 1].observacao)]
  }

  /** `mapearParaResponseDTO`: a snapshot of the entity, history entry by entry. For a valid
      entity the response is itself consistent: it starts at RECEBIDO, its last entry is
      its status, and `finishedAt` is present exactly in a final status. */
  function MapearParaResponseDTO(s: SolicitacaoApolice): (r: SolicitacaoResponseDTO)
    reads s
    ensures r.id == s.id && r.status == s.status && r.finishedAt == s.finishedAt
    ensures |r.history| == |s.history|
    ensures forall i :: 0 <= i < |s.history| ==>
              r.history[i].status == s.history[i].status && r.history[i].observacao == s.history[i].observacao
    ensures s.Valid() ==>
              && |r.history| >= 1
              && r.history[0].status == Recebido
              && r.history[|r.history| - 1].status == r.status
              && (r.finishedAt.Some? <==> r.status.IsEstadoFinal())
  {
    SolicitacaoResponseDTO(s.id, s.customerId, s.productId, s.category, s.salesChannel, s.paymentMethod,
                           s.status, s.createdAt, s.finishedAt, s.totalMonthlyPremiumAmount, s.insuredAmount,
                           s.coverages, s.assistances, HistoricoParaDTO(s.history))
  }

  // ---------------------------------------------------------------- creation

  /** The checks `criarSolicitacao` makes before building the entity, in their order:
      the coverage sum (which throws on a null value), the positivity of every value, and
      the copy of the assistance list that the entity constructor makes. */
  function ChecarRequisicao(r: SolicitacaoRequestDTO): (res: Resultado<()>)
    ensures res.Ok? <==> r.IsCoberturaValida() == Ok(true) && r.IsValoresCoberturaValidos() && r.assistances.Some?
    ensures r.IsCoberturaValida().Lanca? ==> res == Lanca(NullPointerException)
    ensures r.IsCoberturaValida() == Ok(false) ==> res == Lanca(IllegalArgumentException(MensagemSomaExcedida))
    ensures r.IsCoberturaValida() == Ok(true) && r.IsValoresCoberturaValidos() && r.assistances.None? ==>
              res == Lanca(NullPointerException)
  {
    match r.IsCoberturaValida()
    case Lanca(e) => Lanca(e)
    case Ok(valida) =>
      if !valida then Lanca(IllegalArgumentException(MensagemSomaExcedida))
      else if !r.IsValoresCoberturaValidos() then Lanca(IllegalArgumentException(MensagemValoresNaoPositivos))
      else if r.assistances.None? then Lanca(NullPointerException)
      else Ok(())
  }

  /** A request is accepted exactly when it has at least one coverage, every coverage is
      positive, their sum is within the insured amount, and the assistance list is present.
      Each failure throws its own exception. */
  lemma ChecagensDeCriacao(r: SolicitacaoRequestDTO)
    ensures ChecarRequisicao(r).Ok? <==>
              && r.coverages.Some? && |r.coverages.value| >= 1
              && (forall i :: 0 <= i < |r.coverages.value| ==> Positivo(r.coverages.value[i]))
              && ValoresPresentes(r.coverages.value)
              && SomaCoberturas(r.coverages.value) <= r.insuredAmount
              && r.assistances.Some?
    ensures r.coverages.None? || r.coverages == Some([]) ==>
              ChecarRequisicao(r) == Lanca(IllegalArgumentException(MensagemSomaExcedida))
    ensures r.coverages.Some? && |r.coverages.value| > 0 && ValoresPresentes(r.coverages.value)
            && SomaCoberturas(r.coverages.value) > r.insuredAmount ==>
              ChecarRequisicao(r) == Lanca(IllegalArgumentException(MensagemSomaExcedida))
    ensures r.coverages.Some? && |r.coverages.value| > 0 && !ValoresPresentes(r.coverages.value) ==>
              ChecarRequisicao(r) == Lanca(NullPointerException)
    ensures r.IsCoberturaValida() == Ok(true) && !r.IsValoresCoberturaValidos() ==>
              ChecarRequisicao(r) == Lanca(IllegalArgumentException(MensagemValoresNaoPositivos))
    ensures ChecarRequisicao(r).Ok? ==> ValoresPresentes(r.coverages.value)
  {
    ChecagensDeCobertura(r);
  }

  // ---------------------------------------------------------------- cancellation

  /** What `cancelarSolicitacao` does to a stored request. */
  function Cancelamento(c: Ciclo, agora: Instante): (r: Resultado<Passo>)
    ensures r.Ok? <==> c.status in {Recebido, Validado, Pendente}
    ensures r.Lanca? ==> r.excecao == IllegalStateException(MensagemNaoCancelavel(c.status))
    ensures r.Ok? ==> r.valor.ciclo.status == Cancelada && r.valor.salva && r.valor.evento.None?
  {
    if !Cancelavel(c.status) then Lanca(IllegalStateException(MensagemNaoCancelavel(c.status)))
    else
      Ok(Passo(Alterar(c, Cancelada, ObservacaoCancelamento, agora).valor, true, None))
  }

  /** A successful cancellation appends the cancellation entry and, in a valid lifecycle,
      stamps `finishedAt` with its time; a cancelled request cannot be cancelled again. */
  lemma CancelamentoFinaliza(c: Ciclo, agora: Instante, depois: Instante)
    requires CicloValido(c) && Cancelamento(c, agora).Ok?
    ensures var n := Cancelamento(c, agora).valor.ciclo;
            && CicloValido(n)
            && n.history == c.history + [HistoricoStatus(Cancelada, agora, ObservacaoCancelamento)]
            && n.finishedAt == Some(agora)
            && Cancelamento(n, depois) == Lanca(IllegalStateException(MensagemNaoCancelavel(Cancelada)))
  {
    FinalizacaoNoMovimentoFinal(c, Cancelada, ObservacaoCancelamento, agora);
  }

  // ---------------------------------------------------------------- validation

  /** What `processarValidacao` does to a stored request, given the fraud gateway's answer
      (an exception from the gateway propagates). There is no status guard: the move is
      requested from whatever status the request is in. */
  function Validacao(c: Ciclo, categoria: CategoriaSeguro, capital: Centavos,
                     classificacao: Resultado<TipoCliente>, agora: Instante): (r: Resultado<Passo>)
    ensures classificacao.Lanca? ==> r == Lanca(classificacao.excecao)
    ensures r.Ok? ==> r.valor.salva && r.valor.evento.Some?
    ensures r.Ok? ==> var t := classificacao.valor;
              if ValidarCapitalSegurado(t, categoria, capital) then
                r.valor.ciclo.status == Validado && r.valor.evento == Some(SolicitacaoValidada(t))
              else
                r.valor.ciclo.status == Rejeitada &&
                r.valor.evento == Some(SolicitacaoRejeitada(t, ObterMensagemRejeicao(t, categoria, capital)))
    ensures classificacao.Ok? ==>
              (r.Ok? <==> c.status.PodeTransicionarPara(
                            if ValidarCapitalSegurado(classificacao.valor, categoria, capital) then Validado else Rejeitada))
  {
    match classificacao
    case Lanca(e) => Lanca(e)
    case Ok(t) =>
      var (alvo, observacao, evento) := DecisaoDeValidacao(t, categoria, capital);
      match Alterar(c, alvo, observacao, agora)
      case Lanca(e) => Lanca(e)
      case Ok(n) => Ok(Passo(n, true, Some(evento)))
  }

  /** The rule's verdict on a classification: the status to request, the note for the
      history and the event to publish. */
  function DecisaoDeValidacao(t: TipoCliente, categoria: CategoriaSeguro, capital: Centavos)
    : (StatusSolicitacao, string, TipoEvento)
  {
    if ValidarCapitalSegurado(t, categoria, capital) then
      (Validado, ObservacaoValidacao, SolicitacaoValidada(t))
    else
      var motivo := ObterMensagemRejeicao(t, categoria, capital);
      (Rejeitada, motivo, SolicitacaoRejeitada(t, motivo))
  }

  /** From RECEBIDO, an eligible request is validated; an ineligible one is never rejected:
      the move RECEBIDO to REJEITADA is not in the transition table, so the service throws
      IllegalStateException before it saves or publishes anything. */
  lemma ValidacaoDeRecebido(c: Ciclo, categoria: CategoriaSeguro, capital: Centavos, t: TipoCliente, agora: Instante)
    requires c.status == Recebido
    ensures var r := Validacao(c, categoria, capital, Ok(t), agora);
            && (r.Ok? <==> ValidarCapitalSegurado(t, categoria, capital))
            && (r.Ok? ==> r.valor.ciclo.status == Validado &&
                          r.valor.ciclo.history == c.history + [HistoricoStatus(Validado, agora, ObservacaoValidacao)])
            && (r.Lanca? ==> r.excecao == IllegalStateException(MensagemTransicaoInvalida(Recebido, Rejeitada)))
  {
  }

  /** A second delivery of the same request, after it was validated or paid, consults the
      gateway again: an eligible answer now throws (VALIDADO to VALIDADO and PENDENTE to
      VALIDADO are not allowed), while an ineligible answer rejects the request. */
  lemma ValidacaoReentregue(c: Ciclo, categoria: CategoriaSeguro, capital: Centavos, t: TipoCliente, agora: Instante)
    requires c.status == Validado || c.status == Pendente
    ensures var r := Validacao(c, categoria, capital, Ok(t), agora);
            && (ValidarCapitalSegurado(t, categoria, capital) ==>
                  r == Lanca(IllegalStateException(MensagemTransicaoInvalida(c.status, Validado))))
            && (!ValidarCapitalSegurado(t, categoria, capital) ==>
                  r.Ok? && r.valor.ciclo.status == Rejeitada)
  {
  }

  /** Validation never changes a request that has reached a final status. */
  lemma ValidacaoNaoMudaFinal(c: Ciclo, categoria: CategoriaSeguro, capital: Centavos,
                              classificacao: Resultado<TipoCliente>, agora: Instante)
    requires c.status.IsEstadoFinal()
    ensures Validacao(c, categoria, capital, classificacao, agora).Lanca?
  {
  }

  // ---------------------------------------------------------------- the service

  class SolicitacaoService {
    const repositorio: RepositorioSolicitacoes
    const produtor: ProdutorEventos

    constructor (repositorio: RepositorioSolicitacoes, produtor: ProdutorEventos)
      ensures this.repositorio == repositorio && this.produtor == produtor
    {
      this.repositorio := repositorio;
      this.produtor := produtor;
    }

    /** `criarSolicitacao`. The new entity's id and the creation time are inputs; the id is
        one the repository does not hold yet. A failed check throws before anything is
        built, saved or published. */
    method CriarSolicitacao(request: SolicitacaoRequestDTO, novoId: Uuid, agora: Instante)
      returns (r: Resultado<SolicitacaoResponseDTO>)
      requires repositorio.Valid()
      requires novoId !in repositorio.solicitacoes
      modifies repositorio, produtor
      ensures repositorio.Valid()
      ensures r.Ok? <==> ChecarRequisicao(request).Ok?
      ensures r.Lanca? ==>
                && r.excecao == ChecarRequisicao(request).excecao
                && repositorio.solicitacoes == old(repositorio.solicitacoes)
                && repositorio.gravacoes == old(repositorio.gravacoes)
                && produtor.publicados == old(produtor.publicados)
      ensures r.Ok? ==>
                && novoId in repositorio.solicitacoes
                && var s := repositorio.solicitacoes[novoId];
                && fresh(s)
                && repositorio.solicitacoes == old(repositorio.solicitacoes)[novoId := s]
                && s.CicloAtual() == CicloInicial(agora)
                && s.customerId == request.customerId && s.productId == request.productId
                && s.category == request.category && s.salesChannel == request.salesChannel
                && s.paymentMethod == request.paymentMethod
                && s.totalMonthlyPremiumAmount == request.totalMonthlyPremiumAmount
                && s.insuredAmount == request.insuredAmount
                && s.coverages == ParaMapa(request.coverages.value)
                && s.assistances == request.assistances.value
                && repositorio.gravacoes == old(repositorio.gravacoes) + [novoId]
                && produtor.publicados == old(produtor.publicados) +
                     [SolicitacaoEvent(novoId, request.customerId, request.productId, request.category,
                                       request.insuredAmount, SolicitacaoRecebida)]
                && r.valor == MapearParaResponseDTO(s)
    {
      var checagem := ChecarRequisicao(request);
      ChecagensDeCriacao(request);
      if checagem.Lanca? {
        return Lanca(checagem.excecao);
      }
      var s := new SolicitacaoApolice(novoId, request.customerId, request.productId, request.category,
                                      request.salesChannel, request.paymentMethod,
                                      request.totalMonthlyPremiumAmount, request.insuredAmount,
                                      ParaMapa(request.coverages.value), request.assistances.value, agora);
      var salva := repositorio.Save(s);
      produtor.PublicarEvento(EventoDe(salva, SolicitacaoRecebida));
      r := Ok(MapearParaResponseDTO(salva));
    }

    /** `cancelarSolicitacao`: an unknown id gives an empty answer; otherwise the stored
        request takes the `Cancelamento` step and nothing else is touched. */
    method CancelarSolicitacao(id: Uuid, agora: Instante) returns (r: Resultado<Option<SolicitacaoResponseDTO>>)
      requires repositorio.Valid()
      modifies repositorio, repositorio.solicitacoes.Values, produtor
      ensures repositorio.Valid()
      ensures repositorio.solicitacoes == old(repositorio.solicitacoes)
      ensures produtor.publicados == old(produtor.publicados)
      ensures forall k :: k in repositorio.solicitacoes && k != id ==>
                repositorio.solicitacoes[k].CicloAtual() == old(repositorio.solicitacoes[k].CicloAtual())
      ensures id !in repositorio.solicitacoes ==> r == Ok(None) && repositorio.gravacoes == old(repositorio.gravacoes)
      ensures id in repositorio.solicitacoes ==>
                var s := repositorio.solicitacoes[id];
                var passo := Cancelamento(old(s.CicloAtual()), agora);
                && (passo.Lanca? ==> r == Lanca(passo.excecao) && s.CicloAtual() == old(s.CicloAtual())
                                     && repositorio.gravacoes == old(repositorio.gravacoes))
                && (passo.Ok? ==> s.CicloAtual() == passo.valor.ciclo
                                  && repositorio.gravacoes == old(repositorio.gravacoes) + Gravacoes(id, passo.valor)
                                  && r == Ok(Some(MapearParaResponseDTO(s))))
    {
      var encontrada := repositorio.FindById(id);
      if encontrada.None? {
        return Ok(None);
      }
      var s := encontrada.value;
      if !s.PodeCancelar() {
        return Lanca(IllegalStateException(MensagemNaoCancelavel(s.status)));
      }
      var alterada := AplicarTransicao(repositorio, produtor, s, Cancelada, ObservacaoCancelamento, None, agora);
      r := Ok(Some(MapearParaResponseDTO(s)));
    }

    /** `processarValidacao`: an unknown id returns without effect; otherwise the stored
        request takes the `Validacao` step on its own category and insured amount. */
    method ProcessarValidacao(solicitacaoId: Uuid, classificacao: Resultado<TipoCliente>, agora: Instante)
      returns (r: Resultado<()>)
      requires repositorio.Valid()
      modifies repositorio, repositorio.solicitacoes.Values, produtor
      ensures repositorio.Valid()
      ensures repositorio.solicitacoes == old(repositorio.solicitacoes)
      ensures forall k :: k in repositorio.solicitacoes && k != solicitacaoId ==>
                repositorio.solicitacoes[k].CicloAtual() == old(repositorio.solicitacoes[k].CicloAtual())
      ensures solicitacaoId !in repositorio.solicitacoes ==>
                r == Ok(()) && repositorio.gravacoes == old(repositorio.gravacoes)
                && produtor.publicados == old(produtor.publicados)
      ensures solicitacaoId in repositorio.solicitacoes ==>
                var s := repositorio.solicitacoes[solicitacaoId];
                var passo := Validacao(old(s.CicloAtual()), s.category, s.insuredAmount, classificacao, agora);
                && (passo.Lanca? ==> r == Lanca(passo.excecao) && s.CicloAtual() == old(s.CicloAtual())
                                     && repositorio.gravacoes == old(repositorio.gravacoes)
                                     && produtor.publicados == old(produtor.publicados))
                && (passo.Ok? ==> r == Ok(()) && s.CicloAtual() == passo.valor.ciclo
                                  && repositorio.gravacoes == old(repositorio.gravacoes) + Gravacoes(solicitacaoId, passo.valor)
                                  && produtor.publicados == old(produtor.publicados) + Publicacoes(s, passo.valor))
    {
      var encontrada := repositorio.FindById(solicitacaoId);
      if encontrada.None? {
        return Ok(());
      }
      var s := encontrada.value;
      if classificacao.Lanca? {
        return Lanca(classificacao.excecao);
      }
      var (alvo, observacao, tipo) := DecisaoDeValidacao(classificacao.valor, s.category, s.insuredAmount);
      r := AplicarTransicao(repositorio, produtor, s, alvo, observacao, Some(tipo), agora);
    }
  }
}
