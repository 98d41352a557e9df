/** The lifecycle of a policy request: six statuses and the table of legal moves. */
module Status {

  datatype StatusSolicitacao = Recebido | Validado | Pendente | Rejeitada | Aprovada | Cancelada
  {
    /** The human-readable description each constant carries. */
    function Descricao(): string
    {
      match this
      case Recebido => "Recebido"
      case Validado => "Validado"
      case Pendente => "Pendente"
      case Rejeitada => "Rejeitada"
      case Aprovada => "Aprovada"
      case Cancelada => "Cancelada"
    }

    /** The constant's Java name, which is what `toString` and `%s` print. */
    function Nome(): string
    {
      match this
      case Recebido => "RECEBIDO"
      case Validado => "VALIDADO"
      case Pendente => "PENDENTE"
      case Rejeitada => "REJEITADA"
      case Aprovada => "APROVADA"
      case Cancelada => "CANCELADA"
    }

    /** The transition table. */
    predicate PodeTransicionarPara(novoStatus: StatusSolicitacao)
      ensures PodeTransicionarPara(novoStatus) ==> novoStatus != this && novoStatus != Recebido
      ensures this == Rejeitada || this == Aprovada || this == Cancelada ==> !PodeTransicionarPara(novoStatus)
      ensures novoStatus == Cancelada ==> (PodeTransicionarPara(novoStatus) <==> this in {Recebido, Validado, Pendente})
    {
      match this
      case Recebido => novoStatus == Validado || novoStatus == Cancelada
      case Validado => novoStatus == Pendente || novoStatus == Rejeitada || novoStatus == Cancelada
      case Pendente => novoStatus == Aprovada || novoStatus == Rejeitada || novoStatus == Cancelada
      case Rejeitada | Aprovada | Cancelada => false
    }

    /** The final statuses are exactly those from which a request can no longer be cancelled. */
    predicate IsEstadoFinal()
      ensures IsEstadoFinal() <==> !PodeTransicionarPara(Cancelada)
    {
      this == Rejeitada || this == Aprovada || this == Cancelada
    }
  }

  /** How far along the lifecycle a status is; every legal move increases it. */
  function Etapa(s: StatusSolicitacao): nat
  {
    match s
    case Recebido => 0
    case Validado => 1
    case Pendente => 2
    case Rejeitada | Aprovada | Cancelada => 3
  }

  /** The table, row by row, as the enum's own comment and its tests list it. */
  lemma TabelaDeTransicoes(de: StatusSolicitacao, para: StatusSolicitacao)
    ensures de == Recebido ==> (de.PodeTransicionarPara(para) <==> para in {Validado, Cancelada})
    ensures de == Validado ==> (de.PodeTransicionarPara(para) <==> para in {Pendente, Rejeitada, Cancelada})
    ensures de == Pendente ==> (de.PodeTransicionarPara(para) <==> para in {Aprovada, Rejeitada, Cancelada})
    ensures de.IsEstadoFinal() ==> !de.PodeTransicionarPara(para)
  {
  }

  /** The final statuses are exactly the three terminal outcomes. */
  lemma EstadosFinais(s: StatusSolicitacao)
    ensures s.IsEstadoFinal() <==> s in {Rejeitada, Aprovada, Cancelada}
    ensures s.IsEstadoFinal() <==> (forall t: StatusSolicitacao :: !s.PodeTransicionarPara(t))
  {
    if !s.IsEstadoFinal() {
      assert s.PodeTransicionarPara(Cancelada);
    }
  }

  /** A legal move leaves a non-final status, goes somewhere else, never back to the
      initial status, and strictly advances along the lifecycle. */
  lemma TransicaoLegal(de: StatusSolicitacao, para: StatusSolicitacao)
    requires de.PodeTransicionarPara(para)
    ensures !de.IsEstadoFinal() && de != para && para != Recebido
    ensures Etapa(de) < Etapa(para)
  {
  }

  /** Every status that is not final can be cancelled. */
  lemma CancelavelSeNaoFinal(s: StatusSolicitacao)
    ensures s.PodeTransicionarPara(Cancelada) <==> !s.IsEstadoFinal()
  {
  }

  /** Each constant has its own description and its own name. */
  lemma DescricoesDistintas(a: StatusSolicitacao, b: StatusSolicitacao)
    ensures a.Descricao() == b.Descricao() ==> a == b
    ensures a.Nome() == b.Nome() ==> a == b
  {
  }

  /** A chain of legal moves, each status followed by one it may move to. */
  ghost predicate CadeiaLegal(ss: seq<StatusSolicitacao>)
  {
    forall i :: 0 <= i < |ss| - 1 ==> ss[i].PodeTransicionarPara(ss[i + 1])
  }

  /** Along a legal chain every status is at least as far along as its position, so
      a chain starting anywhere has at most four statuses. */
  lemma {:induction false} CadeiaLegalAvanca(ss: seq<StatusSolicitacao>)
    requires CadeiaLegal(ss)
    ensures forall i :: 0 <= i < |ss| ==> Etapa(ss[0]) + i <= Etapa(ss[i])
    ensures |ss| <= 4
  {
    if |ss| > 1 {
      var resto := ss[1..];
      assert CadeiaLegal(resto) by {
        forall i | 0 <= i < |resto| - 1
          ensures resto[i].PodeTransicionarPara(resto[i + 1])
        {
          assert resto[i] == ss[i + 1] && resto[i + 1] == ss[i + 2];
        }
      }
      CadeiaLegalAvanca(resto);
      TransicaoLegal(ss[0], ss[1]);
      forall i | 0 <= i < |ss|
        ensures Etapa(ss[0]) + i <= Etapa(ss[i])
      {
        if i > 0 {
          assert ss[i] == resto[i - 1];
        }
      }
      assert Etapa(ss[0]) + (|ss| - 1) <= Etapa(ss[|ss| - 1]) <= 3;
    }
  }
}
