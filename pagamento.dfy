/** The consumer of payment-confirmed messages. */
module Pagamento {
  import opened Comum
  import opened Status
  import opened Apolice
  import opened Eventos
  import opened Repositorio
  import opened Fluxo

  const ObservacaoPagamento := "Pagamento confirmado, aguardando subscrição"

  /** What `processarPagamentoConfirmado` does to a stored request: VALIDADO moves to
      PENDENTE and is saved; PENDENTE is acknowledged without change; any other status is
      ignored. It never fails and never publishes. */
  function AposPagamentoConfirmado(c: Ciclo, agora: Instante): (p: Passo)
    ensures p.evento.None?
    ensures c.status == Validado ==>
              && p.salva && p.ciclo.status == Pendente
              && p.ciclo.history == c.history + [HistoricoStatus(Pendente, agora, ObservacaoPagamento)]
              && p.ciclo.finishedAt == c.finishedAt
    ensures c.status != Validado ==> p == SemEfeito(c)
    ensures CicloValido(c) ==> CicloValido(p.ciclo)
  {
    if c.status != Validado && c.status != Pendente then SemEfeito(c)
    else if c.status == Validado then Passo(Alterar(c, Pendente, ObservacaoPagamento, agora).valor, true, None)
    else SemEfeito(c)
  }

  /** A redelivered confirmation changes nothing: applying the handler twice leaves the
      request as applying it once, with no second save. */
  lemma PagamentoIdempotente(c: Ciclo, agora: Instante, depois: Instante)
    ensures var uma := AposPagamentoConfirmado(c, agora).ciclo;
            AposPagamentoConfirmado(uma, depois) == SemEfeito(uma)
  {
  }

  class PagamentoEventConsumer {
    const repositorio: RepositorioSolicitacoes
    const produtor: ProdutorEventos

    constructor (repositorio: RepositorioSolicitacoes, produtor: ProdutorEventos)
      ensures this.repositorio == repositorio && this.produtor == produtor
    {
      this.repositorio := repositorio;
      this.produtor := produtor;
    }

    /** `processarPagamentoConfirmado`: an unknown id is ignored; otherwise the stored
        request takes the `AposPagamentoConfirmado` step, and nothing else changes. */
    method ProcessarPagamentoConfirmado(solicitacaoId: Uuid, agora: Instante)
      requires repositorio.Valid()
      modifies repositorio, repositorio.solicitacoes.Values, produtor
      ensures repositorio.Valid()
      ensures repositorio.solicitacoes == old(repositorio.solicitacoes)
      ensures produtor.publicados == old(produtor.publicados)
      ensures forall k :: k in repositorio.solicitacoes && k != solicitacaoId ==>
                repositorio.solicitacoes[k].CicloAtual() == old(repositorio.solicitacoes[k].CicloAtual())
      ensures solicitacaoId !in repositorio.solicitacoes ==> repositorio.gravacoes == old(repositorio.gravacoes)
      ensures solicitacaoId in repositorio.solicitacoes ==>
                var s := repositorio.solicitacoes[solicitacaoId];
                var passo := AposPagamentoConfirmado(old(s.CicloAtual()), agora);
                && s.CicloAtual() == passo.ciclo
                && repositorio.gravacoes == old(repositorio.gravacoes) + Gravacoes(solicitacaoId, passo)
    {
      var encontrada := repositorio.FindById(solicitacaoId);
      if encontrada.None? {
        return;
      }
      var s := encontrada.value;
      if s.status != Validado && s.status != Pendente {
        return;
      }
      if s.status == Validado {
        var alterada := AplicarTransicao(repositorio, produtor, s, Pendente, ObservacaoPagamento, None, agora);
      }
    }
  }
}
