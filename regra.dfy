/** The insured-amount eligibility rule: a 4 x 5 table of limits indexed by the
    customer's risk class and the product category, and an inclusive comparison. */
module RegraValidacao {
  import opened Comum
  import opened Classificacao
  import opened Valores

  /** `validarCapitalSegurado`: the amount passes when it does not exceed the limit. */
  function ValidarCapitalSegurado(tipoCliente: TipoCliente, categoria: CategoriaSeguro, capitalSegurado: Centavos): (aprovado: bool)
    // the smallest limit in the table is R$ 55,000.00 and the largest R$ 800,000.00
    ensures capitalSegurado <= 55000_00 ==> aprovado
    ensures capitalSegurado > 800000_00 ==> !aprovado
  {
    capitalSegurado <= ObterLimiteCapitalSegurado(tipoCliente, categoria)
  }

  /** `obterLimiteCapitalSegurado`: dispatch on the risk class; defined for every pair. */
  function ObterLimiteCapitalSegurado(tipoCliente: TipoCliente, categoria: CategoriaSeguro): (limite: Centavos)
    ensures limite > 0 && limite % 100 == 0
  {
    match tipoCliente
    case Regular => ObterLimiteClienteRegular(categoria)
    case AltoRisco => ObterLimiteClienteAltoRisco(categoria)
    case Preferencial => ObterLimiteClientePreferencial(categoria)
    case SemInformacao => ObterLimiteClienteSemInformacao(categoria)
  }

  function ObterLimiteClienteRegular(categoria: CategoriaSeguro): Centavos
  {
    match categoria
    case Vida | Residencial => 500000_00
    case Auto => 350000_00
    case Empresarial | Outros => 255000_00
  }

  function ObterLimiteClienteAltoRisco(categoria: CategoriaSeguro): Centavos
  {
    match categoria
    case Auto => 250000_00
    case Residencial => 150000_00
    case Vida | Empresarial | Outros => 125000_00
  }

  function ObterLimiteClientePreferencial(categoria: CategoriaSeguro): Centavos
  {
    match categoria
    case Vida => 800000_00
    case Auto | Residencial => 450000_00
    case Empresarial | Outros => 375000_00
  }

  function ObterLimiteClienteSemInformacao(categoria: CategoriaSeguro): Centavos
  {
    match categoria
    case Vida | Residencial => 200000_00
    case Auto => 75000_00
    case Empresarial | Outros => 55000_00
  }

  /** `obterMensagemRejeicao`: the rejection reason recorded in the history and the event. */
  function ObterMensagemRejeicao(tipoCliente: TipoCliente, categoria: CategoriaSeguro, capitalSegurado: Centavos): (m: string)
    ensures OcorreEm(m, "Capital segurado de R$ ", 0)
    ensures OcorreEm(m, categoria.Descricao(), |m| - |categoria.Descricao()|)
  {
    var valor := FormatarValor(capitalSegurado);
    var limite := FormatarValor(ObterLimiteCapitalSegurado(tipoCliente, categoria));
    MolduraDaMensagem("Capital segurado de R$ ", valor, " excede o limite de R$ ", limite,
                      " para cliente ", tipoCliente.Descricao(), " em seguro ", categoria.Descricao());
    "Capital segurado de R$ " + valor
      + " excede o limite de R$ " + limite
      + " para cliente " + tipoCliente.Descricao()
      + " em seguro " + categoria.Descricao()
  }

  /** A text built by appending pieces starts with its first piece and ends with its last. */
  lemma MolduraDaMensagem(p0: string, v: string, p1: string, l: string, p2: string, td: string, p3: string, cd: string)
    ensures OcorreEm(p0 + v + p1 + l + p2 + td + p3 + cd, p0, 0)
    ensures OcorreEm(p0 + v + p1 + l + p2 + td + p3 + cd, cd, |p0 + v + p1 + l + p2 + td + p3 + cd| - |cd|)
  {
    OcorreNoInicio(p0, v);
    OcorreAposAcrescimo(p0 + v, p1, p0, 0);
    OcorreAposAcrescimo(p0 + v + p1, l, p0, 0);
    OcorreAposAcrescimo(p0 + v + p1 + l, p2, p0, 0);
    OcorreAposAcrescimo(p0 + v + p1 + l + p2, td, p0, 0);
    OcorreAposAcrescimo(p0 + v + p1 + l + p2 + td, p3, p0, 0);
    OcorreAposAcrescimo(p0 + v + p1 + l + p2 + td + p3, cd, p0, 0);
    OcorreNoFim(p0 + v + p1 + l + p2 + td + p3, cd);
  }

  /** The full table of limits, in cents. */
  lemma TabelaDeLimites(c: CategoriaSeguro)
    ensures ObterLimiteCapitalSegurado(Regular, c) ==
      (match c case Vida => 500000_00 case Auto => 350000_00 case Residencial => 500000_00
               case Empresarial => 255000_00 case Outros => 255000_00)
    ensures ObterLimiteCapitalSegurado(AltoRisco, c) ==
      (match c case Vida => 125000_00 case Auto => 250000_00 case Residencial => 150000_00
               case Empresarial => 125000_00 case Outros => 125000_00)
    ensures ObterLimiteCapitalSegurado(Preferencial, c) ==
      (match c case Vida => 800000_00 case Auto => 450000_00 case Residencial => 450000_00
               case Empresarial => 375000_00 case Outros => 375000_00)
    ensures ObterLimiteCapitalSegurado(SemInformacao, c) ==
      (match c case Vida => 200000_00 case Auto => 75000_00 case Residencial => 200000_00
               case Empresarial => 55000_00 case Outros => 55000_00)
  {
  }

  /** The boundary is inclusive: the limit itself passes, one cent more does not. */
  lemma LimiteInclusivo(t: TipoCliente, c: CategoriaSeguro, x: Centavos)
    ensures ValidarCapitalSegurado(t, c, ObterLimiteCapitalSegurado(t, c))
    ensures !ValidarCapitalSegurado(t, c, ObterLimiteCapitalSegurado(t, c) + 1)
  {
  }

  /** Eligibility is downward closed in the amount. */
  lemma ElegibilidadeFechadaParaBaixo(t: TipoCliente, c: CategoriaSeguro, x: Centavos, y: Centavos)
    requires ValidarCapitalSegurado(t, c, x) && y <= x
    ensures ValidarCapitalSegurado(t, c, y)
  {
  }

  /** The rejection message quotes the requested amount, the limit, and both descriptions,
      each exactly as printed. */
  lemma MensagemRejeicaoContem(t: TipoCliente, c: CategoriaSeguro, x: Centavos)
    ensures Contem(ObterMensagemRejeicao(t, c, x), FormatarValor(x))
    ensures Contem(ObterMensagemRejeicao(t, c, x), FormatarValor(ObterLimiteCapitalSegurado(t, c)))
    ensures Contem(ObterMensagemRejeicao(t, c, x), t.Descricao())
    ensures Contem(ObterMensagemRejeicao(t, c, x), c.Descricao())
  {
    var p0 := "Capital segurado de R$ ";
    var v := FormatarValor(x);
    var p1 := " excede o limite de R$ ";
    var l := FormatarValor(ObterLimiteCapitalSegurado(t, c));
    var p2 := " para cliente ";
    var td := t.Descricao();
    var p3 := " em seguro ";
    var cd := c.Descricao();
    var s1 := p0 + v;
    var s2 := s1 + p1;
    var s3 := s2 + l;
    var s4 := s3 + p2;
    var s5 := s4 + td;
    var s6 := s5 + p3;
    var m := s6 + cd;
    assert m == ObterMensagemRejeicao(t, c, x);
    OcorreNoFim(p0, v);
    OcorreAposAcrescimo(s1, p1, v, |p0|);
    OcorreAposAcrescimo(s2, l, v, |p0|);
    OcorreAposAcrescimo(s3, p2, v, |p0|);
    OcorreAposAcrescimo(s4, td, v, |p0|);
    OcorreAposAcrescimo(s5, p3, v, |p0|);
    OcorreAposAcrescimo(s6, cd, v, |p0|);
    OcorreNoFim(s2, l);
    OcorreAposAcrescimo(s3, p2, l, |s2|);
    OcorreAposAcrescimo(s4, td, l, |s2|);
    OcorreAposAcrescimo(s5, p3, l, |s2|);
    OcorreAposAcrescimo(s6, cd, l, |s2|);
    OcorreNoFim(s4, td);
    OcorreAposAcrescimo(s5, p3, td, |s4|);
    OcorreAposAcrescimo(s6, cd, td, |s4|);
    OcorreNoFim(s6, cd);
  }

  lemma ValoresDoCenario()
    ensures FormatarValor(250000_01) == "250000.01"
    ensures FormatarValor(250000_00) == "250000.00"
  {
    assert DigitosDe(25) == "25";
    assert DigitosDe(250) == "250";
    assert DigitosDe(2500) == "2500";
    assert DigitosDe(25000) == "25000";
    assert DigitosDe(250000) == "250000";
  }

  /** One cent over the limit: 250000.01 for a high-risk customer buying AUTO fails,
      and the reason quotes "250000.01" and "250000.00". */
  lemma CenarioAltoRiscoAcimaDoLimite()
    ensures !ValidarCapitalSegurado(AltoRisco, Auto, 250000_01)
    ensures Contem(ObterMensagemRejeicao(AltoRisco, Auto, 250000_01), "250000.01")
    ensures Contem(ObterMensagemRejeicao(AltoRisco, Auto, 250000_01), "250000.00")
  {
    var x := 250000_01;
    MensagemRejeicaoContem(AltoRisco, Auto, x);
    ValoresDoCenario();
    assert ObterLimiteCapitalSegurado(AltoRisco, Auto) == 250000_00;
  }
}
