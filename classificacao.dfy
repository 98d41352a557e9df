/** The two closed vocabularies the eligibility rule is indexed by: the risk class the
    fraud service assigns to a customer, and the product category of a request. */
module Classificacao {

  datatype TipoCliente = Regular | AltoRisco | Preferencial | SemInformacao
  {
    function Descricao(): string
    {
      match this
      case Regular => "Regular"
      case AltoRisco => "Alto Risco"
      case Preferencial => "Preferencial"
      case SemInformacao => "Sem Informação"
    }
  }

  datatype CategoriaSeguro = Vida | Auto | Residencial | Empresarial | Outros
  {
    function Descricao(): string
    {
      match this
      case Vida => "Vida"
      case Auto => "Auto"
      case Residencial => "Residencial"
      case Empresarial => "Empresarial"
      case Outros => "Outros"
    }
  }

  /** The descriptions identify their constants, so a message quoting them is unambiguous. */
  lemma DescricoesIdentificam(t: TipoCliente, u: TipoCliente, c: CategoriaSeguro, d: CategoriaSeguro)
    ensures t.Descricao() == u.Descricao() ==> t == u
    ensures c.Descricao() == d.Descricao() ==> c == d
  {
  }
}
