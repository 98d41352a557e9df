/** The request accepted at intake and the two business checks it offers: coverages
    must not exceed the insured amount, and every coverage must be positive. */
module RequisicaoDTO {
  import opened Comum
  import opened Classificacao

  /** One entry of the coverages map: a coverage name and its amount, which may be null. */
  datatype Cobertura = Cobertura(nome: string, valor: Option<Centavos>)

  predicate NomesDistintos(cs: seq<Cobertura>)
  {
    forall i, j :: 0 <= i < j < |cs| ==> cs[i].nome != cs[j].nome
  }

  /** A `Map<String, BigDecimal>` seen as its entries in iteration order; keys are unique. */
  type MapaCoberturas = cs: seq<Cobertura> | NomesDistintos(cs) witness []

  predicate ValoresPresentes(cs: seq<Cobertura>)
  {
    forall i :: 0 <= i < |cs| ==> cs[i].valor.Some?
  }

  /** `reduce(ZERO, BigDecimal::add)` over the values: a left fold in iteration order. */
  function SomaCoberturas(cs: seq<Cobertura>): Centavos
    requires ValoresPresentes(cs)
  {
    if cs == [] then 0 else SomaCoberturas(cs[..|cs| - 1]) + cs[|cs| - 1].valor.value
  }

  /** Dropping the last entry keeps the values present and the names distinct. */
  lemma PrefixoBemFormado(cs: seq<Cobertura>)
    requires ValoresPresentes(cs) && NomesDistintos(cs) && cs != []
    ensures ValoresPresentes(cs[..|cs| - 1]) && NomesDistintos(cs[..|cs| - 1])
  {
    var ini := cs[..|cs| - 1];
    forall i, j | 0 <= i < j < |ini| ensures ini[i].nome != ini[j].nome {
      assert ini[i] == cs[i] && ini[j] == cs[j];
    }
  }

  /** The copy the entity keeps (`new HashMap<>(coverages)`), once every value is known
      to be present. */
  function ParaMapa(cs: seq<Cobertura>): map<string, Centavos>
    requires ValoresPresentes(cs) && NomesDistintos(cs)
  {
    if cs == [] then map[]
    else
      PrefixoBemFormado(cs);
      ParaMapa(cs[..|cs| - 1])[cs[|cs| - 1].nome := cs[|cs| - 1].valor.value]
  }

  /** The copied map holds each named coverage with its amount, and nothing else. */
  lemma {:induction false} ParaMapaConteudo(cs: seq<Cobertura>)
    requires ValoresPresentes(cs) && NomesDistintos(cs)
    ensures forall i :: 0 <= i < |cs| ==> cs[i].nome in ParaMapa(cs) && ParaMapa(cs)[cs[i].nome] == cs[i].valor.value
    ensures forall k :: k in ParaMapa(cs) ==> exists i :: 0 <= i < |cs| && cs[i].nome == k
  {
    if cs != [] {
      var ini := cs[..|cs| - 1];
      var ultima := cs[|cs| - 1];
      PrefixoBemFormado(cs);
      ParaMapaConteudo(ini);
      var m := ParaMapa(cs);
      assert m == ParaMapa(ini)[ultima.nome := ultima.valor.value];
      forall i | 0 <= i < |cs| ensures cs[i].nome in m && m[cs[i].nome] == cs[i].valor.value {
        if i < |ini| {
          assert cs[i] == ini[i];
          assert cs[i].nome != ultima.nome;
        }
      }
      forall k | k in m ensures exists i :: 0 <= i < |cs| && cs[i].nome == k {
        if k == ultima.nome {
          assert cs[|cs| - 1].nome == k;
        } else {
          var i :| 0 <= i < |ini| && ini[i].nome == k;
          assert cs[i].nome == k;
        }
      }
    }
  }

  datatype SolicitacaoRequestDTO = SolicitacaoRequestDTO(
    customerId: Uuid,
    productId: string,
    category: CategoriaSeguro,
    salesChannel: string,
    paymentMethod: string,
    totalMonthlyPremiumAmount: Centavos,
    insuredAmount: Centavos,
    coverages: Option<MapaCoberturas>,
    assistances: Option<seq<string>>)
  {
    /** `isCoberturaValida`: false for a null or empty map; otherwise the sum of the values
        against the insured amount. Adding a null value throws, as `BigDecimal.add` does. */
    function IsCoberturaValida(): (r: Resultado<bool>)
      ensures coverages.None? || |coverages.value| == 0 ==> r == Ok(false)
      ensures r.Lanca? <==> coverages.Some? && |coverages.value| > 0 && !ValoresPresentes(coverages.value)
      ensures r.Lanca? ==> r.excecao == NullPointerException
      ensures r.Ok? && r.valor ==> coverages.Some? && |coverages.value| > 0
                                   && SomaCoberturas(coverages.value) <= insuredAmount
      ensures coverages.Some? && |coverages.value| > 0 && ValoresPresentes(coverages.value) ==>
                r == Ok(SomaCoberturas(coverages.value) <= insuredAmount)
    {
      if coverages.None? || |coverages.value| == 0 then Ok(false)
      else if !ValoresPresentes(coverages.value) then Lanca(NullPointerException)
      else Ok(SomaCoberturas(coverages.value) <= insuredAmount)
    }

    /** `isValoresCoberturaValidos`: false for a null map; otherwise every value is
        non-null and positive (so an empty map passes). */
    predicate IsValoresCoberturaValidos()
      ensures coverages.None? ==> !IsValoresCoberturaValidos()
      ensures coverages == Some([]) ==> IsValoresCoberturaValidos()
      ensures IsValoresCoberturaValidos() ==> ValoresPresentes(coverages.value)
      ensures IsValoresCoberturaValidos() && |coverages.value| > 0 ==> IsCoberturaValida().Ok?
    {
      coverages.Some? && forall i :: 0 <= i < |coverages.value| ==> Positivo(coverages.value[i])
    }
  }

  predicate Positivo(c: Cobertura)
  {
    c.valor.Some? && c.valor.value > 0
  }

  /** The declared Bean Validation constraints, checked before the service is reached. */
  predicate RestricoesDeclaradas(r: SolicitacaoRequestDTO)
  {
    && NaoEmBranco(r.productId)
    && NaoEmBranco(r.salesChannel)
    && NaoEmBranco(r.paymentMethod)
    // @DecimalMin("0.01") and at most 8 integer digits (2 fraction digits are implicit in cents)
    && 1 <= r.totalMonthlyPremiumAmount < 100000000_00
    // @DecimalMin("0.01") and at most 10 integer digits
    && 1 <= r.insuredAmount < 10000000000_00
    // @NotNull and @Size(min = 1)
    && r.coverages.Some? && |r.coverages.value| >= 1
    // @NotNull, possibly empty
    && r.assistances.Some?
  }

  /** `@NotBlank`: some character survives `trim`, that is, lies above U+0020. */
  predicate NaoEmBranco(s: string)
  {
    exists i :: 0 <= i < |s| && s[i] > ' '
  }

  /** The two checks, read off the coverages they inspect. */
  lemma ChecagensDeCobertura(r: SolicitacaoRequestDTO)
    ensures r.coverages.None? ==> r.IsCoberturaValida() == Ok(false) && !r.IsValoresCoberturaValidos()
    ensures r.coverages == Some([]) ==> r.IsCoberturaValida() == Ok(false) && r.IsValoresCoberturaValidos()
    ensures r.IsValoresCoberturaValidos() ==> ValoresPresentes(r.coverages.value)
    ensures r.IsValoresCoberturaValidos() && |r.coverages.value| > 0 ==>
              r.IsCoberturaValida() == Ok(SomaCoberturas(r.coverages.value) <= r.insuredAmount)
  {
  }

  lemma {:induction false} SomaConcatenacao(a: seq<Cobertura>, b: seq<Cobertura>)
    requires ValoresPresentes(a) && ValoresPresentes(b)
    ensures ValoresPresentes(a + b)
    ensures SomaCoberturas(a + b) == SomaCoberturas(a) + SomaCoberturas(b)
  {
    if b == [] {
      assert a + b == a;
    } else {
      var b' := b[..|b| - 1];
      assert ValoresPresentes(b');
      SomaConcatenacao(a, b');
      assert (a + b)[..|a + b| - 1] == a + b';
    }
  }

  /** Taking out the entry at `j` removes one copy of it from the multiset of entries. */
  lemma SemAEntradaMultiset(b: seq<Cobertura>, j: nat)
    requires j < |b|
    ensures multiset(b[..j] + b[j + 1..]) == multiset(b) - multiset{b[j]}
  {
    var antes, x, depois := b[..j], b[j], b[j + 1..];
    assert b == antes + [x] + depois;
    calc {
      multiset(b);
      multiset(antes + [x] + depois);
      multiset(antes) + multiset([x]) + multiset(depois);
    }
  }

  /** Taking out the entry at `j` removes its amount from the sum. */
  lemma SemAEntrada(b: seq<Cobertura>, j: nat)
    requires ValoresPresentes(b) && j < |b|
    ensures ValoresPresentes(b[..j] + b[j + 1..])
    ensures SomaCoberturas(b) == SomaCoberturas(b[..j] + b[j + 1..]) + b[j].valor.value
  {
    var antes, x, depois := b[..j], b[j], b[j + 1..];
    assert b == antes + [x] + depois;
    assert ValoresPresentes(antes) && ValoresPresentes(depois) && ValoresPresentes([x]);
    SomaConcatenacao(antes, [x]);
    SomaConcatenacao(antes + [x], depois);
    SomaConcatenacao(antes, depois);
    assert SomaCoberturas([x]) == x.valor.value by {
      assert [x][..0] == [];
    }
  }

  /** The sum does not depend on the order in which the map yields its entries. */
  lemma {:induction false} SomaIndependeDaOrdem(a: seq<Cobertura>, b: seq<Cobertura>)
    requires ValoresPresentes(a) && multiset(a) == multiset(b)
    ensures ValoresPresentes(b)
    ensures SomaCoberturas(a) == SomaCoberturas(b)
    decreases |a|
  {
    forall i | 0 <= i < |b| ensures b[i].valor.Some? {
      assert b[i] in multiset(b);
      assert b[i] in a;
    }
    if a != [] {
      var k := |a| - 1;
      assert a[..k] == a[..k] + a[k + 1..];
      SemAEntrada(a, k);
      SemAEntradaMultiset(a, k);
      assert a[k] in multiset(b);
      var j :| 0 <= j < |b| && b[j] == a[k];
      SemAEntrada(b, j);
      SemAEntradaMultiset(b, j);
      SomaIndependeDaOrdem(a[..k], b[..j] + b[j + 1..]);
    }
  }

  /** With positive values, each coverage is at most the sum. */
  lemma {:induction false} CadaCoberturaAteASoma(cs: seq<Cobertura>, k: nat)
    requires forall i :: 0 <= i < |cs| ==> Positivo(cs[i])
    requires k < |cs|
    ensures ValoresPresentes(cs)
    ensures 0 < cs[k].valor.value <= SomaCoberturas(cs)
  {
    var ini := cs[..|cs| - 1];
    assert forall i :: 0 <= i < |ini| ==> Positivo(ini[i]);
    if k < |cs| - 1 {
      CadaCoberturaAteASoma(ini, k);
      assert ini[k] == cs[k];
    } else if ini != [] {
      CadaCoberturaAteASoma(ini, 0);
    }
  }

  /** A request that passes both service checks has every coverage in (0, insuredAmount],
      and so a positive insured amount, whenever it names any coverage. */
  lemma CoberturasAceitas(r: SolicitacaoRequestDTO, k: nat)
    requires r.IsCoberturaValida() == Ok(true) && r.IsValoresCoberturaValidos()
    requires k < |r.coverages.value|
    ensures 0 < r.coverages.value[k].valor.value <= r.insuredAmount
  {
    CadaCoberturaAteASoma(r.coverages.value, k);
  }

  /** The declared constraints rule out the null and empty cases, leaving only the sum. */
  lemma RestricoesReduzemChecagem(r: SolicitacaoRequestDTO)
    requires RestricoesDeclaradas(r) && r.IsValoresCoberturaValidos()
    ensures r.IsCoberturaValida() == Ok(SomaCoberturas(r.coverages.value) <= r.insuredAmount)
  {
  }

  /** The service test's request: 100000.25 + 100000.25 + 75000.00 = 275000.50 against an
      insured amount of exactly 275000.50 is accepted (the boundary is inclusive). */
  lemma ExemploDoTeste(customerId: Uuid)
    ensures var cs: MapaCoberturas := [ Cobertura("Roubo", Some(100000_25)),
                                        Cobertura("Perda Total", Some(100000_25)),
                                        Cobertura("Colisão com Terceiros", Some(75000_00)) ];
            var r := SolicitacaoRequestDTO(customerId, "1b2da7cc-b367-4196-8a78-9cfeec21f587", Auto,
                                           "MOBILE", "CREDIT_CARD", 75_25, 275000_50, Some(cs),
                                           Some(["Guincho até 250km", "Troca de Óleo", "Chaveiro 24h"]));
            && RestricoesDeclaradas(r)
            && r.IsCoberturaValida() == Ok(true) && r.IsValoresCoberturaValidos()
            && r.(insuredAmount := 275000_49).IsCoberturaValida() == Ok(false)
  {
    assert |"Roubo"| == 5 && |"Perda Total"| == 11 && |"Colisão com Terceiros"| == 21;
    var cs: MapaCoberturas := [ Cobertura("Roubo", Some(100000_25)),
                                Cobertura("Perda Total", Some(100000_25)),
                                Cobertura("Colisão com Terceiros", Some(75000_00)) ];
    assert SomaCoberturas(cs) == 275000_50 by {
      var c1, c2 := cs[..1], cs[..2];
      assert c1[..0] == [];
      assert SomaCoberturas(c1) == 100000_25;
      assert c2[..1] == c1;
      assert SomaCoberturas(c2) == 200000_50;
      assert cs[..2] == c2;
    }
    assert "1b2da7cc-b367-4196-8a78-9cfeec21f587"[0] > ' ';
    assert "MOBILE"[0] > ' ';
    assert "CREDIT_CARD"[0] > ' ';
  }
}
