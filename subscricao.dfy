/** The consumer of underwriting-decision messages. */
module Subscricao {
  import opened Comum
  import opened Status
  import opened Classificacao
  import opened Apolice
  import opened Eventos
  import opened Repositorio
  import opened Fluxo

  const ObservacaoAutorizada := "Subscrição autorizada"
  const MotivoPadrao := "Subscrição negada pelo subscritor"

  /** The rejection reason: the message's `motivoRejeicao` when the key is present,
      otherwise the default. */
  function Motivo(motivoRejeicao: Option<string>): (m: string)
    ensures motivoRejeicao.Some? ==> m == motivoRejeicao.value
    ensures motivoRejeicao.None? ==> m == MotivoPadrao
  {
    if motivoRejeicao.Some? then motivoRejeicao.value else MotivoPadrao
  }

  /** What `processarSubscricaoAutorizada` does to a stored request. Only PENDENTE reacts;
      a missing `autorizado` flag then fails on unboxing. Authorisation approves without an
      event; refusal rejects and publishes a rejection with classification REGULAR. */
  function AposSubscricao(c: Ciclo, autorizado: Option<bool>, motivoRejeicao: Option<string>, agora: Instante)
    : (r: Resultado<Passo>)
    ensures c.status != Pendente ==> r == Ok(SemEfeito(c))
    ensures r.Lanca? <==> c.status == Pendente && autorizado.None?
    ensures r.Lanca? ==> r.excecao == NullPointerException
    ensures c.status == Pendente && autorizado == Some(true) ==>
              && r.Ok? && r.valor.salva && r.valor.evento.None?
              && r.valor.ciclo.status == Aprovada
              && r.valor.ciclo.history == c.history + [HistoricoStatus(Aprovada, agora, ObservacaoAutorizada)]
    ensures c.status == Pendente && autorizado == Some(false) ==>
              && r.Ok? && r.valor.salva
              && r.valor.evento == Some(SolicitacaoRejeitada(Regular, Motivo(motivoRejeicao)))
              && r.valor.ciclo.status == Rejeitada
              && r.valor.ciclo.history == c.history + [HistoricoStatus(Rejeitada, agora, Motivo(motivoRejeicao))]
  {
    if c.status != Pendente then Ok(SemEfeito(c))
    else if autorizado.None? then Lanca(NullPointerException)
    else if autorizado.value then
      Ok(Passo(Alterar(c, Aprovada, ObservacaoAutorizada, agora).valor, true, None))
    else
      var motivo := Motivo(motivoRejeicao);
      Ok(Passo(Alterar(c, Rejeitada, motivo, agora).valor, true, Some(SolicitacaoRejeitada(Regular, motivo))))
  }

  /** Both outcomes are final: `finishedAt` becomes the decision's time, and any later
      delivery, authorised or not, is a no-op. */
  lemma DecisaoFinal(c: Ciclo, autorizado: bool, motivoRejeicao: Option<string>, agora: Instante,
                     outroAutorizado: Option<bool>, outroMotivo: Option<string>, depois: Instante)
    requires CicloValido(c) && c.status == Pendente
    ensures var n := AposSubscricao(c, Some(autorizado), motivoRejeicao, agora).valor.ciclo;
            && CicloValido(n)
            && n.status.IsEstadoFinal()
            && n.finishedAt == Some(agora)
            && AposSubscricao(n, outroAutorizado, outroMotivo, depois) == Ok(SemEfeito(n))
  {
    var alvo := if autorizado then Aprovada else Rejeitada;
    FinalizacaoNoMovimentoFinal(c, alvo, if autorizado then ObservacaoAutorizada else Motivo(motivoRejeicao), agora);
  }

  class SubscricaoEventConsumer {
    const repositorio: RepositorioSolicitacoes
    const produtor: ProdutorEventos

    constructor (repositorio: RepositorioSolicitacoes, produtor: ProdutorEventos)
      ensures this.repositorio == repositorio && this.produtor == produtor
    {
      this.repositorio := repositorio;
      this.produtor := produtor;
    }

    /** `processarSubscricaoAutorizada`: an unknown id is ignored; otherwise the stored
        request takes the `AposSubscricao` step, and nothing else changes. */
    method ProcessarSubscricaoAutorizada(solicitacaoId: Uuid, autorizado: Option<bool>,
                                         motivoRejeicao: Option<string>, agora: Instante)
      returns (r: Resultado<()>)
      requires repositorio.Valid()
      modifies repositorio, repositorio.solicitacoes.Values, produtor
      ensures repositorio.Valid()
      ensures repositorio.solicitacoes == old(repositorio.solicitacoes)
      ensures forall k :: k in repositorio.solicitacoes && k != solicitacaoId ==>
                repositorio.solicitacoes[k].CicloAtual() == old(repositorio.solicitacoes[k].CicloAtual())
      ensures solicitacaoId !in repositorio.solicitacoes ==>
                r == Ok(()) && repositorio.gravacoes == old(repositorio.gravacoes)
                && produtor.publicados == old(produtor.publicados)
      ensures solicitacaoId in repositorio.solicitacoes ==>
                var s := repositorio.solicitacoes[solicitacaoId];
                var passo := AposSubscricao(old(s.CicloAtual()), autorizado, motivoRejeicao, agora);
                && (passo.Lanca? ==> r == Lanca(passo.excecao) && s.CicloAtual() == old(s.CicloAtual())
                                     && repositorio.gravacoes == old(repositorio.gravacoes)
                                     && produtor.publicados == old(produtor.publicados))
                && (passo.Ok? ==> r == Ok(()) && s.CicloAtual() == passo.valor.ciclo
                                  && repositorio.gravacoes == old(repositorio.gravacoes) + Gravacoes(solicitacaoId, passo.valor)
                                  && produtor.publicados == old(produtor.publicados) + Publicacoes(s, passo.valor))
    {
      var encontrada := repositorio.FindById(solicitacaoId);
      if encontrada.None? {
        return Ok(());
      }
      var s := encontrada.value;
      if s.status != Pendente {
        return Ok(());
      }
      if autorizado.None? {
        return Lanca(NullPointerException);
      }
      if autorizado.value {
        r := AplicarTransicao(repositorio, produtor, s, Aprovada, ObservacaoAutorizada, None, agora);
      } else {
        var motivo := Motivo(motivoRejeicao);
        r := AplicarTransicao(repositorio, produtor, s, Rejeitada, motivo, Some(SolicitacaoRejeitada(Regular, motivo)), agora);
      }
    }
  }
}
