/** The policy request entity: immutable request data, plus a status, a completion time
    and an append-only audit history that change only through `AlterarStatus`. */
module Apolice {
  import opened Comum
  import opened Status
  import opened Classificacao

  /** One audit entry: the status entered, when, and a note. */
  datatype HistoricoStatus = HistoricoStatus(status: StatusSolicitacao, timestamp: Instante, observacao: string)

  /** The part of the entity that changes over its life. */
  datatype Ciclo = Ciclo(status: StatusSolicitacao, finishedAt: Option<Instante>, history: seq<HistoricoStatus>)

  /** The lifecycle invariant: the history starts with RECEBIDO, ends with the current
      status, records only legal moves, and `finishedAt` is set exactly in final statuses. */
  ghost predicate CicloValido(c: Ciclo)
  {
    && |c.history| >= 1
    && c.history[0].status == Recebido
    && c.history[|c.history| - 1].status == c.status
    && (c.finishedAt.Some? <==> c.status.IsEstadoFinal())
    && forall i :: 0 <= i < |c.history| - 1 ==> c.history[i].status.PodeTransicionarPara(c.history[i + 1].status)
  }

  /** The state the constructor leaves: RECEBIDO, not finished, one history entry. */
  function CicloInicial(agora: Instante): (c: Ciclo)
    ensures CicloValido(c)
    ensures c.status == Recebido && c.finishedAt.None? && |c.history| == 1
    ensures c.history[0].observacao == "Solicitação recebida"
  {
    Ciclo(Recebido, None, [HistoricoStatus(Recebido, agora, "Solicitação recebida")])
  }

  function MensagemTransicaoInvalida(de: StatusSolicitacao, para: StatusSolicitacao): (m: string)
    ensures |m| > 13 + |de.Nome()| && m[..13] == "Transição de " && m[13..13 + |de.Nome()|] == de.Nome()
    ensures m[|m| - 16..] == " não é permitida"
  {
    "Transição de " + de.Nome() + " para " + para.Nome() + " não é permitida"
  }

  /** `alterarStatus` on the changing part of the entity: an illegal move throws and
      changes nothing; a legal one sets the status, appends one entry and stamps
      `finishedAt` on the first move into a final status. */
  function Alterar(c: Ciclo, novoStatus: StatusSolicitacao, observacao: string, agora: Instante): (r: Resultado<Ciclo>)
    ensures r.Ok? <==> c.status.PodeTransicionarPara(novoStatus)
    ensures r.Lanca? ==> r.excecao.IllegalStateException?
    ensures r.Ok? ==> r.valor.status == novoStatus && |r.valor.history| == |c.history| + 1
    ensures CicloValido(c) && r.Ok? ==> CicloValido(r.valor)
  {
    if !c.status.PodeTransicionarPara(novoStatus) then
      Lanca(IllegalStateException(MensagemTransicaoInvalida(c.status, novoStatus)))
    else
      var finishedAt := if novoStatus.IsEstadoFinal() && c.finishedAt.None? then Some(agora) else c.finishedAt;
      Ok(Ciclo(novoStatus, finishedAt, c.history + [HistoricoStatus(novoStatus, agora, observacao)]))
  }

  /** Earlier entries are never touched: a legal move keeps the old history as a prefix
      and puts exactly (novoStatus, observacao) at the end. */
  lemma AlterarSoAcrescenta(c: Ciclo, novoStatus: StatusSolicitacao, observacao: string, agora: Instante)
    requires Alterar(c, novoStatus, observacao, agora).Ok?
    ensures var h := Alterar(c, novoStatus, observacao, agora).valor.history;
            h[..|c.history|] == c.history && h[|c.history|] == HistoricoStatus(novoStatus, agora, observacao)
  {
  }

  /** In a valid lifecycle `finishedAt` is stamped on the move into a final status, with
      that move's time, and stays unset on any other move. */
  lemma FinalizacaoNoMovimentoFinal(c: Ciclo, novoStatus: StatusSolicitacao, observacao: string, agora: Instante)
    requires CicloValido(c) && Alterar(c, novoStatus, observacao, agora).Ok?
    ensures c.finishedAt.None?
    ensures Alterar(c, novoStatus, observacao, agora).valor.finishedAt ==
              (if novoStatus.IsEstadoFinal() then Some(agora) else None)
  {
    TransicaoLegal(c.status, novoStatus);
  }

  /** Once final, every further move throws, so status, history and `finishedAt` are frozen. */
  lemma FinalCongelado(c: Ciclo, novoStatus: StatusSolicitacao, observacao: string, agora: Instante)
    requires c.status.IsEstadoFinal()
    ensures Alterar(c, novoStatus, observacao, agora) ==
              Lanca(IllegalStateException(MensagemTransicaoInvalida(c.status, novoStatus)))
  {
  }

  /** The statuses recorded in a history, in order. */
  function StatusesDe(h: seq<HistoricoStatus>): (ss: seq<StatusSolicitacao>)
    ensures |ss| == |h| && forall i :: 0 <= i < |h| ==> ss[i] == h[i].status
  {
    seq(|h|, i requires 0 <= i < |h| => h[i].status)
  }

  /** Every lifecycle is short: the history has at most four entries (for example
      RECEBIDO, VALIDADO, PENDENTE, APROVADA), and its i-th entry is at stage i or later. */
  lemma HistoricoLimitado(c: Ciclo)
    requires CicloValido(c)
    ensures |c.history| <= 4
    ensures forall i :: 0 <= i < |c.history| ==> i <= Etapa(c.history[i].status)
  {
    var ss := StatusesDe(c.history);
    assert CadeiaLegal(ss) by {
      forall i | 0 <= i < |ss| - 1 ensures ss[i].PodeTransicionarPara(ss[i + 1]) {
        assert ss[i] == c.history[i].status && ss[i + 1] == c.history[i + 1].status;
      }
    }
    CadeiaLegalAvanca(ss);
  }

  /** A status change someone asks for. */
  datatype Pedido = Pedido(novoStatus: StatusSolicitacao, observacao: string, agora: Instante)

  /** Applies a series of status changes, as `alterarStatus` calls that each either succeed
      or throw; returns the final state and how many succeeded. */
  function AplicarPedidos(c: Ciclo, pedidos: seq<Pedido>): (Ciclo, nat)
  {
    if pedidos == [] then (c, 0)
    else
      var (antes, n) := AplicarPedidos(c, pedidos[..|pedidos| - 1]);
      var p := pedidos[|pedidos| - 1];
      match Alterar(antes, p.novoStatus, p.observacao, p.agora)
      case Ok(depois) => (depois, n + 1)
      case Lanca(_) => (antes, n)
  }

  /** Over any series of calls the lifecycle stays valid, the history only grows at the
      end, and its length is one plus the number of successful transitions. */
  lemma {:induction false} AplicarPedidosAuditoria(criacao: Instante, pedidos: seq<Pedido>)
    ensures var c := CicloInicial(criacao);
            var (final, n) := AplicarPedidos(c, pedidos);
            && CicloValido(final)
            && |final.history| == 1 + n
            && final.history[..1] == c.history
  {
    var c := CicloInicial(criacao);
    if pedidos != [] {
      AplicarPedidosAuditoria(criacao, pedidos[..|pedidos| - 1]);
      var (antes, n) := AplicarPedidos(c, pedidos[..|pedidos| - 1]);
      var p := pedidos[|pedidos| - 1];
      if Alterar(antes, p.novoStatus, p.observacao, p.agora).Ok? {
        AlterarSoAcrescenta(antes, p.novoStatus, p.observacao, p.agora);
      }
    }
  }

  /** The cancellation guard on a status: not APROVADA and not final. */
  predicate Cancelavel(s: StatusSolicitacao)
  {
    s != Aprovada && !s.IsEstadoFinal()
  }

  class SolicitacaoApolice {
    const id: Uuid
    const customerId: Uuid
    const productId: string
    const category: CategoriaSeguro
    const salesChannel: string
    const paymentMethod: string
    const totalMonthlyPremiumAmount: Centavos
    const insuredAmount: Centavos
    const coverages: map<string, Centavos>
    const assistances: seq<string>
    const createdAt: Instante
    var status: StatusSolicitacao
    var finishedAt: Option<Instante>
    var history: seq<HistoricoStatus>

    function CicloAtual(): Ciclo
      reads this
    {
      Ciclo(status, finishedAt, history)
    }

    ghost predicate Valid()
      reads this
    {
      CicloValido(CicloAtual())
    }

    /** A new request: RECEBIDO, not finished, with the single entry "Solicitação recebida". */
    constructor (id: Uuid, customerId: Uuid, productId: string, category: CategoriaSeguro,
                 salesChannel: string, paymentMethod: string,
                 totalMonthlyPremiumAmount: Centavos, insuredAmount: Centavos,
                 coverages: map<string, Centavos>, assistances: seq<string>, agora: Instante)
      ensures Valid()
      ensures this.id == id && this.customerId == customerId && this.productId == productId
      ensures this.category == category && this.salesChannel == salesChannel
      ensures this.paymentMethod == paymentMethod
      ensures this.totalMonthlyPremiumAmount == totalMonthlyPremiumAmount
      ensures this.insuredAmount == insuredAmount
      ensures this.coverages == coverages && this.assistances == assistances
      ensures createdAt == agora
      ensures CicloAtual() == CicloInicial(agora)
    {
      this.id := id;
      this.customerId := customerId;
      this.productId := productId;
      this.category := category;
      this.salesChannel := salesChannel;
      this.paymentMethod := paymentMethod;
      this.totalMonthlyPremiumAmount := totalMonthlyPremiumAmount;
      this.insuredAmount := insuredAmount;
      this.coverages := coverages;
      this.assistances := assistances;
      this.status := Recebido;
      this.createdAt := agora;
      this.finishedAt := None;
      this.history := [];
      new;
      AdicionarHistorico(Recebido, "Solicitação recebida", agora);
    }

    /** `alterarStatus`: throws IllegalStateException on an illegal move, changing nothing;
        otherwise sets the status, appends one entry and stamps `finishedAt` once. */
    method AlterarStatus(novoStatus: StatusSolicitacao, observacao: string, agora: Instante) returns (r: Resultado<()>)
      requires Valid()
      modifies this
      ensures Valid()
      ensures r.Ok? <==> old(status).PodeTransicionarPara(novoStatus)
      ensures r.Lanca? ==> r.excecao == IllegalStateException(MensagemTransicaoInvalida(old(status), novoStatus))
      ensures r.Lanca? ==> status == old(status) && finishedAt == old(finishedAt) && history == old(history)
      ensures r.Ok? ==> status == novoStatus
      ensures r.Ok? ==> history == old(history) + [HistoricoStatus(novoStatus, agora, observacao)]
      ensures r.Ok? ==> finishedAt == if novoStatus.IsEstadoFinal() && old(finishedAt).None? then Some(agora) else old(finishedAt)
      ensures r.Ok? ==> CicloAtual() == Alterar(old(CicloAtual()), novoStatus, observacao, agora).valor
    {
      if !status.PodeTransicionarPara(novoStatus) {
        return Lanca(IllegalStateException(MensagemTransicaoInvalida(status, novoStatus)));
      }
      status := novoStatus;
      AdicionarHistorico(novoStatus, observacao, agora);
      if novoStatus.IsEstadoFinal() && finishedAt.None? {
        finishedAt := Some(agora);
      }
      r := Ok(());
    }

    /** `adicionarHistorico`: appends one entry, touching nothing else. */
    method AdicionarHistorico(status: StatusSolicitacao, observacao: string, agora: Instante)
      modifies this`history
      ensures history == old(history) + [HistoricoStatus(status, agora, observacao)]
    {
      history := history + [HistoricoStatus(status, agora, observacao)];
    }

    /** `podeCancelar`: exactly the three non-final statuses, which are exactly those the
        table lets move to CANCELADA. */
    function PodeCancelar(): (pode: bool)
      reads this
      ensures pode <==> status in {Recebido, Validado, Pendente}
      ensures pode <==> status.PodeTransicionarPara(Cancelada)
    {
      Cancelavel(status)
    }
  }
}
