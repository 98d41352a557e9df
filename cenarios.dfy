/** Whole lifecycles, composed from the handlers' steps. */
module Cenarios {
  import opened Comum
  import opened Status
  import opened Classificacao
  import opened RegraValidacao
  import opened Apolice
  import opened Eventos
  import opened Servico
  import opened Pagamento
  import opened Subscricao

  /** The happy path: an eligible request that is validated, paid and authorised ends
      APROVADA, with the four entries RECEBIDO, VALIDADO, PENDENTE, APROVADA and the
      approval time as `finishedAt`; it published only the validation event on the way. */
  lemma CaminhoDeAprovacao(t0: Instante, t1: Instante, t2: Instante, t3: Instante,
                           categoria: CategoriaSeguro, capital: Centavos, tipo: TipoCliente)
    requires ValidarCapitalSegurado(tipo, categoria, capital)
    ensures var c0 := CicloInicial(t0);
            var v := Validacao(c0, categoria, capital, Ok(tipo), t1);
            && v.Ok? && v.valor.evento == Some(SolicitacaoValidada(tipo))
            && var c1 := v.valor.ciclo;
            var c2 := AposPagamentoConfirmado(c1, t2).ciclo;
            var s := AposSubscricao(c2, Some(true), None, t3);
            && s.Ok? && s.valor.evento.None?
            && var c3 := s.valor.ciclo;
            && CicloValido(c3)
            && c3.status == Aprovada
            && c3.finishedAt == Some(t3)
            && StatusesDe(c3.history) == [Recebido, Validado, Pendente, Aprovada]
  {
    var c0 := CicloInicial(t0);
    ValidacaoDeRecebido(c0, categoria, capital, tipo, t1);
    var c1 := Validacao(c0, categoria, capital, Ok(tipo), t1).valor.ciclo;
    var c2 := AposPagamentoConfirmado(c1, t2).ciclo;
    DecisaoFinal(c2, true, None, t3, None, None, t3);
    var c3 := AposSubscricao(c2, Some(true), None, t3).valor.ciclo;
    assert c3.history == c0.history + [HistoricoStatus(Validado, t1, ObservacaoValidacao),
                                       HistoricoStatus(Pendente, t2, ObservacaoPagamento),
                                       HistoricoStatus(Aprovada, t3, ObservacaoAutorizada)];
  }

  /** An ineligible request is never rejected by validation: the rejection throws, so the
      request stays RECEBIDO with its single entry, and a later payment confirmation or
      underwriting decision is ignored. Only cancellation still moves it. */
  lemma IneligivelFicaRecebido(t0: Instante, t1: Instante, t2: Instante,
                               categoria: CategoriaSeguro, capital: Centavos, tipo: TipoCliente,
                               autorizado: Option<bool>, motivo: Option<string>)
    requires !ValidarCapitalSegurado(tipo, categoria, capital)
    ensures var c0 := CicloInicial(t0);
            && Validacao(c0, categoria, capital, Ok(tipo), t1).Lanca?
            && AposPagamentoConfirmado(c0, t2) == SemEfeito(c0)
            && AposSubscricao(c0, autorizado, motivo, t2) == Ok(SemEfeito(c0))
            && Cancelamento(c0, t2).Ok?
  {
    ValidacaoDeRecebido(CicloInicial(t0), categoria, capital, tipo, t1);
  }

  /** A rejection by the underwriter after payment ends REJEITADA with the underwriter's
      reason, and publishes that reason in a rejection event. */
  lemma CaminhoDeRecusa(t0: Instante, t1: Instante, t2: Instante, t3: Instante,
                        categoria: CategoriaSeguro, capital: Centavos, tipo: TipoCliente, motivo: string)
    requires ValidarCapitalSegurado(tipo, categoria, capital)
    ensures var c1 := Validacao(CicloInicial(t0), categoria, capital, Ok(tipo), t1).valor.ciclo;
            var c2 := AposPagamentoConfirmado(c1, t2).ciclo;
            var s := AposSubscricao(c2, Some(false), Some(motivo), t3);
            && s.Ok? && s.valor.evento == Some(SolicitacaoRejeitada(Regular, motivo))
            && s.valor.ciclo.status == Rejeitada
            && s.valor.ciclo.finishedAt == Some(t3)
            && s.valor.ciclo.history[|s.valor.ciclo.history| - 1].observacao == motivo
  {
    var c0 := CicloInicial(t0);
    ValidacaoDeRecebido(c0, categoria, capital, tipo, t1);
    var c1 := Validacao(c0, categoria, capital, Ok(tipo), t1).valor.ciclo;
    var c2 := AposPagamentoConfirmado(c1, t2).ciclo;
    DecisaoFinal(c2, false, Some(motivo), t3, None, None, t3);
  }
}
