/** The shape every handler shares once it has loaded a request and decided what to do:
    `alterarStatus`, then `save`, then possibly `publicarEvento`. */
module Fluxo {
  import opened Comum
  import opened Status
  import opened Apolice
  import opened Eventos
  import opened Repositorio

  /** Requests the move on the stored entity `s`. An illegal move throws from
      `alterarStatus`, before the save and the publication; a legal one is saved once and
      publishes `evento` when there is one. */
  method AplicarTransicao(repositorio: RepositorioSolicitacoes, produtor: ProdutorEventos,
                          s: SolicitacaoApolice, novoStatus: StatusSolicitacao, observacao: string,
                          evento: Option<TipoEvento>, agora: Instante)
    returns (r: Resultado<()>)
    requires repositorio.Valid()
    requires s.id in repositorio.solicitacoes && repositorio.solicitacoes[s.id] == s
    modifies repositorio, s, produtor
    ensures repositorio.Valid()
    ensures repositorio.solicitacoes == old(repositorio.solicitacoes)
    ensures var a := Alterar(old(s.CicloAtual()), novoStatus, observacao, agora);
            && (a.Lanca? ==> r == Lanca(a.excecao) && s.CicloAtual() == old(s.CicloAtual())
                             && repositorio.gravacoes == old(repositorio.gravacoes)
                             && produtor.publicados == old(produtor.publicados))
            && (a.Ok? ==> r == Ok(()) && s.CicloAtual() == a.valor
                          && repositorio.gravacoes == old(repositorio.gravacoes) + [s.id]
                          && produtor.publicados == old(produtor.publicados) + Publicacoes(s, Passo(a.valor, true, evento)))
  {
    var alterada := s.AlterarStatus(novoStatus, observacao, agora);
    if alterada.Lanca? {
      return Lanca(alterada.excecao);
    }
    assert repositorio.Valid() by {
      forall k | k in repositorio.solicitacoes
        ensures repositorio.solicitacoes[k].id == k && repositorio.solicitacoes[k].Valid()
      {
        if k != s.id {
          assert repositorio.solicitacoes[k] != s;
        }
      }
    }
    // storing `s` under its own id again leaves the map as it was
    assert repositorio.solicitacoes[s.id := s] == repositorio.solicitacoes;
    var salva := repositorio.Save(s);
    if evento.Some? {
      produtor.PublicarEvento(EventoDe(salva, evento.value));
    }
    r := Ok(());
  }
}
