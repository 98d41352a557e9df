/** Storage of requests by id, with the two operations the handlers use. */
module Repositorio {
  import opened Comum
  import opened Apolice

  class RepositorioSolicitacoes {
    /** The stored entities; `findById` hands out the stored object itself, so a change
        made through it is seen by later lookups. */
    var solicitacoes: map<Uuid, SolicitacaoApolice>
    /** The ids passed to `save`, in order. */
    ghost var gravacoes: seq<Uuid>

    /** Every entity is stored under its own id and keeps its lifecycle invariant. Since
        ids are fixed, two keys never share one entity. */
    ghost predicate Valid()
      reads this, solicitacoes.Values
    {
      forall k :: k in solicitacoes ==> solicitacoes[k].id == k && solicitacoes[k].Valid()
    }

    constructor ()
      ensures solicitacoes == map[] && gravacoes == [] && Valid()
    {
      solicitacoes := map[];
      gravacoes := [];
    }

    method FindById(id: Uuid) returns (r: Option<SolicitacaoApolice>)
      ensures r.Some? <==> id in solicitacoes
      ensures r.Some? ==> r.value == solicitacoes[id]
      ensures Valid() && r.Some? ==> r.value.id == id && r.value.Valid()
    {
      if id in solicitacoes {
        r := Some(solicitacoes[id]);
      } else {
        r := None;
      }
    }

    /** `save`: stores the entity under its id and returns it. */
    method Save(s: SolicitacaoApolice) returns (salva: SolicitacaoApolice)
      requires Valid() && s.Valid()
      requires s.id in solicitacoes ==> solicitacoes[s.id] == s
      modifies this
      ensures Valid()
      ensures salva == s
      ensures solicitacoes == old(solicitacoes)[s.id := s]
      ensures gravacoes == old(gravacoes) + [s.id]
    {
      solicitacoes := solicitacoes[s.id := s];
      gravacoes := gravacoes + [s.id];
      salva := s;
    }
  }
}
