# Policy request lifecycle — a verified Dafny model

This project models the core of `insurance-policy-service`, a service that accepts
insurance policy requests ("solicitações de apólice") and moves each one through its
lifecycle. The parts modelled are:

- **The status table.** There are six statuses: RECEBIDO, VALIDADO, PENDENTE, REJEITADA, APROVADA and CANCELADA. A table fixes which moves are legal, and three of the statuses are final.
- **The request entity.** It holds immutable request data plus a status, a completion time (`finishedAt`) and an append-only audit history. All three change only through `alterarStatus`.
- **The eligibility rule.** A 4 × 5 table maps the fraud service's risk class and the product category to a maximum insured amount. The comparison against it is inclusive, and the rule also builds a rejection message quoting the amounts.
- **The request DTO's coverage checks.** The coverages must not sum to more than the insured amount, every coverage must be positive, and the DTO carries its declared field constraints.
- **The service.** It covers creation, cancellation, fraud validation and the mapping of an entity to its response.
- **The two message consumers.** One handles payment confirmation, the other the underwriting decision.

Amounts are integer cents (`Comum.Centavos`). The source compares scale-2 `BigDecimal`s with `compareTo`, which ignores scale, so comparing cents is exact.

The model is organised as follows:

- **Entity.** `Apolice.SolicitacaoApolice` is a class. Its request data are `const` fields; `status`, `finishedAt` and `history` are mutable fields. `AlterarStatus` is proved against the pure function `Apolice.Alterar` on the changing part (`Apolice.Ciclo`). `Apolice.CicloValido` is the lifecycle invariant it keeps.
- **Storage and events.**
  - The repository is a class holding a map from id to entity object. `findById` hands out the stored object itself, as the persistence context does.
  - The repository keeps a ghost log of the ids passed to `save`.
  - The event producer keeps the log of published events.
- **Handlers.** Each handler is a method. Its contract ties the new state of the loaded entity, the save log and the event log to a pure step function:
  - `Servico.Cancelamento` and `Servico.Validacao`;
  - `Pagamento.AposPagamentoConfirmado`;
  - `Subscricao.AposSubscricao`.

  The lemmas are stated about these step functions.
- **Inputs.** Timestamps, the new entity's id and the fraud service's answer are parameters.

Two behaviours of the source are kept as written and proved as lemmas:

- **No status guard in validation.** `processarValidacao` has no status guard. A second delivery re-evaluates the request: see `Servico.ValidacaoReentregue`.
- **Ineligible requests are never rejected.** An ineligible request still in RECEBIDO is not rejected. The service asks for RECEBIDO → REJEITADA, which the table does not allow, so `alterarStatus` throws before anything is saved or published. The request stays RECEBIDO: see `Servico.ValidacaoDeRecebido` and `Cenarios.IneligivelFicaRecebido`.

## Model

| member | source | states |
|---|---|---|
| Status.TabelaDeTransicoes | src/main/java/com/itau/seguros/solicitacao/domain/model/StatusSolicitacao.java:69-76 | RECEBIDO may move only to VALIDADO or CANCELADA; VALIDADO only to PENDENTE, REJEITADA or CANCELADA; PENDENTE only to APROVADA, REJEITADA or CANCELADA; a final status to nothing |
| Status.StatusSolicitacao.PodeTransicionarPara | src/main/java/com/itau/seguros/solicitacao/domain/model/StatusSolicitacao.java:69-76 | no status may move to itself or back to RECEBIDO, a final status has no move, and CANCELADA is reachable exactly from RECEBIDO, VALIDADO and PENDENTE |
| Status.StatusSolicitacao.IsEstadoFinal | src/main/java/com/itau/seguros/solicitacao/domain/model/StatusSolicitacao.java:83-85 | a status is final exactly when it can no longer move to CANCELADA |
| Status.EstadosFinais | src/main/java/com/itau/seguros/solicitacao/domain/model/StatusSolicitacao.java:83-85 | a status is final exactly when it is REJEITADA, APROVADA or CANCELADA, and exactly when it admits no move at all |
| Status.TransicaoLegal | src/main/java/com/itau/seguros/solicitacao/domain/model/StatusSolicitacao.java:69-76 | a legal move starts from a non-final status, never targets its own source, never targets RECEBIDO, and strictly advances the lifecycle stage |
| Status.CancelavelSeNaoFinal | src/main/java/com/itau/seguros/solicitacao/domain/model/StatusSolicitacao.java:71-73 | a status may move to CANCELADA exactly when it is not final |
| Status.DescricoesDistintas | src/main/java/com/itau/seguros/solicitacao/domain/model/StatusSolicitacao.java:21-61 | the six constants have pairwise distinct descriptions and distinct names |
| Status.CadeiaLegalAvanca | src/main/java/com/itau/seguros/solicitacao/domain/model/StatusSolicitacao.java:69-76 | along any chain of legal moves the i-th status is at least i stages past the first, so no chain has more than four statuses |
| Classificacao.DescricoesIdentificam | src/main/java/com/itau/seguros/solicitacao/domain/model/TipoCliente.java:16-35 | risk classes, and likewise insurance categories, are identified by their descriptions |
| Valores.Digito | src/main/java/com/itau/seguros/solicitacao/domain/rule/RegraValidacaoCliente.java:105-107 | a single decimal digit's character has exactly that digit's value |
| Valores.DigitosDe | src/main/java/com/itau/seguros/solicitacao/domain/rule/RegraValidacaoCliente.java:105-107 | the decimal rendering of a whole number is a non-empty run of digits with no leading zero |
| Valores.DigitosIdaEVolta | src/main/java/com/itau/seguros/solicitacao/domain/rule/RegraValidacaoCliente.java:105-107 | reading back the decimal rendering of n gives n |
| Valores.FormatarValor | src/main/java/com/itau/seguros/solicitacao/domain/rule/RegraValidacaoCliente.java:105-107 | how a scale-2 amount prints: at least four characters, with the decimal point third from the end |
| Valores.LerCorpo | src/main/java/com/itau/seguros/solicitacao/domain/rule/RegraValidacaoCliente.java:105-107 | an unsigned "integer.fraction" text reads back as integer × 100 + fraction |
| Valores.FracaoLida | src/main/java/com/itau/seguros/solicitacao/domain/rule/RegraValidacaoCliente.java:105-107 | the two printed fraction digits read back as the amount's cents |
| Valores.FormatarValorIdaEVolta | src/main/java/com/itau/seguros/solicitacao/domain/rule/RegraValidacaoCliente.java:105-107 | the printed amount parses back to the same amount, for negative amounts too |
| Valores.FormatarValorInjetivo | src/main/java/com/itau/seguros/solicitacao/domain/rule/RegraValidacaoCliente.java:105-107 | different amounts print differently |
| RegraValidacao.ObterLimiteCapitalSegurado | src/main/java/com/itau/seguros/solicitacao/domain/rule/RegraValidacaoCliente.java:42-49 | a limit is defined for all 20 (risk class, category) pairs, and each limit is positive and a whole number of reais |
| RegraValidacao.ValidarCapitalSegurado | src/main/java/com/itau/seguros/solicitacao/domain/rule/RegraValidacaoCliente.java:29-32 | every amount up to R$ 55,000.00 (the smallest limit) passes for every pair, and every amount above R$ 800,000.00 (the largest) fails for every pair |
| RegraValidacao.ObterMensagemRejeicao | src/main/java/com/itau/seguros/solicitacao/domain/rule/RegraValidacaoCliente.java:103-109 | the reason starts with "Capital segurado de R$ " and ends with the category's description |
| RegraValidacao.TabelaDeLimites | src/main/java/com/itau/seguros/solicitacao/domain/rule/RegraValidacaoCliente.java:54-93 | the complete table of limits, per risk class and category |
| RegraValidacao.LimiteInclusivo | src/main/java/com/itau/seguros/solicitacao/domain/rule/RegraValidacaoCliente.java:29-32 | the comparison is inclusive: the limit itself passes and one cent more fails, for every pair |
| RegraValidacao.ElegibilidadeFechadaParaBaixo | src/main/java/com/itau/seguros/solicitacao/domain/rule/RegraValidacaoCliente.java:29-32 | if an amount passes, every smaller amount passes for the same pair |
| RegraValidacao.MensagemRejeicaoContem | src/main/java/com/itau/seguros/solicitacao/domain/rule/RegraValidacaoCliente.java:103-109 | the rejection message contains the requested amount, the limit, the risk class's description and the category's description, each as printed |
| RegraValidacao.ValoresDoCenario | src/test/java/com/itau/seguros/solicitacao/domain/rule/RegraValidacaoClienteTest.java:174-175 | 250000.01 and 250000.00 print as "250000.01" and "250000.00" |
| RegraValidacao.CenarioAltoRiscoAcimaDoLimite | src/test/java/com/itau/seguros/solicitacao/domain/rule/RegraValidacaoClienteTest.java:174-175 | 250000.01 for a high-risk AUTO request fails, and the reason quotes both "250000.01" and "250000.00" |
| RequisicaoDTO.ParaMapaConteudo | src/main/java/com/itau/seguros/solicitacao/domain/model/SolicitacaoApolice.java:98 | the coverage map copied into the entity has exactly the request's coverage names as keys, each bound to its value |
| RequisicaoDTO.SolicitacaoRequestDTO.IsCoberturaValida | src/main/java/com/itau/seguros/solicitacao/api/dto/SolicitacaoRequestDTO.java:57-66 | null or empty coverages give false; a null value throws NullPointerException; otherwise, with every value present, the result is true exactly when the sum is at most the insured amount |
| RequisicaoDTO.ChecagensDeCobertura | src/main/java/com/itau/seguros/solicitacao/api/dto/SolicitacaoRequestDTO.java:57-80 | null coverages fail both checks; an empty map fails the sum check but passes the positivity check; passing the positivity check means every value is present; with at least one coverage, the sum check is exactly sum ≤ insured amount |
| RequisicaoDTO.SolicitacaoRequestDTO.IsValoresCoberturaValidos | src/main/java/com/itau/seguros/solicitacao/api/dto/SolicitacaoRequestDTO.java:73-80 | null coverages fail, an empty map passes, passing implies no null value, and for a non-empty passing map the sum check does not throw |
| RequisicaoDTO.SomaConcatenacao | src/main/java/com/itau/seguros/solicitacao/api/dto/SolicitacaoRequestDTO.java:62-63 | the sum over two groups of coverages is the sum of the two sums |
| RequisicaoDTO.SemAEntradaMultiset | src/main/java/com/itau/seguros/solicitacao/api/dto/SolicitacaoRequestDTO.java:62-63 | removing one coverage entry removes exactly one copy of it from the entries |
| RequisicaoDTO.SemAEntrada | src/main/java/com/itau/seguros/solicitacao/api/dto/SolicitacaoRequestDTO.java:62-63 | removing one coverage lowers the sum by exactly its value |
| RequisicaoDTO.SomaIndependeDaOrdem | src/main/java/com/itau/seguros/solicitacao/api/dto/SolicitacaoRequestDTO.java:62-63 | the sum of the coverage values does not depend on the map's iteration order (any permutation gives the same sum) |
| RequisicaoDTO.CadaCoberturaAteASoma | src/main/java/com/itau/seguros/solicitacao/api/dto/SolicitacaoRequestDTO.java:78-79 | when every coverage is positive, each one lies between zero (exclusive) and the sum |
| RequisicaoDTO.CoberturasAceitas | src/main/java/com/itau/seguros/solicitacao/api/dto/SolicitacaoRequestDTO.java:57-80 | a request passing both checks has every coverage strictly positive and at most the insured amount |
| RequisicaoDTO.RestricoesReduzemChecagem | src/main/java/com/itau/seguros/solicitacao/api/dto/SolicitacaoRequestDTO.java:34-49 | once the declared constraints hold (at least one coverage, bounded positive amounts, assistances present), the sum check reduces to sum ≤ insured amount |
| RequisicaoDTO.ExemploDoTeste | src/test/java/com/itau/seguros/solicitacao/application/service/SolicitacaoServiceTest.java:274-279 | 100000.25 + 100000.25 + 75000.00 against 275000.50 passes both checks (the boundary is inclusive); against 275000.49 the sum check fails |
| Apolice.CicloInicial | src/main/java/com/itau/seguros/solicitacao/domain/model/SolicitacaoApolice.java:87-105 | a new request is RECEBIDO, unfinished, with the single entry (RECEBIDO, "Solicitação recebida"), and satisfies the lifecycle invariant |
| Apolice.MensagemTransicaoInvalida | src/main/java/com/itau/seguros/solicitacao/domain/model/SolicitacaoApolice.java:115-118 | the message is "Transição de ", then the source status's name, and ends with " não é permitida" |
| Apolice.Alterar | src/main/java/com/itau/seguros/solicitacao/domain/model/SolicitacaoApolice.java:114-128 | succeeds exactly when the table allows the move, otherwise throws IllegalStateException; on success the status is the new one and the history grows by one; it preserves the lifecycle invariant |
| Apolice.AlterarSoAcrescenta | src/main/java/com/itau/seguros/solicitacao/domain/model/SolicitacaoApolice.java:121-138 | a legal move keeps every earlier entry and puts exactly (novoStatus, time, observacao) at the end |
| Apolice.FinalizacaoNoMovimentoFinal | src/main/java/com/itau/seguros/solicitacao/domain/model/SolicitacaoApolice.java:125-127 | in a valid lifecycle a legal move starts unfinished; afterwards `finishedAt` is that move's time if the target is final and unset otherwise |
| Apolice.FinalCongelado | src/main/java/com/itau/seguros/solicitacao/domain/model/SolicitacaoApolice.java:115-119 | from a final status every move throws IllegalStateException("Transição de X para Y não é permitida") |
| Apolice.HistoricoLimitado | src/main/java/com/itau/seguros/solicitacao/domain/model/SolicitacaoApolice.java:114-128 | a valid history has at most four entries, and its i-th entry is at lifecycle stage i or later |
| Apolice.AplicarPedidosAuditoria | src/main/java/com/itau/seguros/solicitacao/domain/model/SolicitacaoApolice.java:104-128 | after any series of `alterarStatus` calls on a new request, the invariant holds, the first entry is unchanged, and the history has one entry plus one per successful call |
| Apolice.SolicitacaoApolice.constructor | src/main/java/com/itau/seguros/solicitacao/domain/model/SolicitacaoApolice.java:87-105 | copies the request data and starts in the initial lifecycle state, which is valid |
| Apolice.SolicitacaoApolice.AlterarStatus | src/main/java/com/itau/seguros/solicitacao/domain/model/SolicitacaoApolice.java:114-128 | an illegal move throws and changes nothing; a legal one sets the status, appends one entry and stamps `finishedAt` only if it was unset and the target is final, as `Alterar` does; the invariant is kept and the request data, being constant, are untouched |
| Apolice.SolicitacaoApolice.AdicionarHistorico | src/main/java/com/itau/seguros/solicitacao/domain/model/SolicitacaoApolice.java:136-138 | appends exactly one entry and touches no other field |
| Apolice.SolicitacaoApolice.PodeCancelar | src/main/java/com/itau/seguros/solicitacao/domain/model/SolicitacaoApolice.java:145-147 | true exactly for RECEBIDO, VALIDADO and PENDENTE, which are exactly the statuses the table lets move to CANCELADA |
| Eventos.SolicitacaoEvent.Status | src/main/java/com/itau/seguros/solicitacao/domain/event/SolicitacaoEvent.java:40-51 | a received event carries RECEBIDO, a validated event VALIDADO, a rejected event REJEITADA, and no other combination occurs |
| Eventos.SolicitacaoEvent.EventType | src/main/java/com/itau/seguros/solicitacao/domain/event/SolicitacaoRecebidaEvent.java:17 | every event type is "SOLICITACAO_" followed by a non-empty suffix naming the kind |
| Eventos.TiposDistintosRotasDistintas | src/main/java/com/itau/seguros/solicitacao/infrastructure/messaging/SolicitacaoEventProducer.java:65-74 | events carrying different statuses have different event types, and `obterRoutingKey` switches on that string, so each kind selects its own routing-key property |
| Eventos.ProdutorEventos.constructor | src/main/java/com/itau/seguros/solicitacao/infrastructure/messaging/SolicitacaoEventProducer.java:35-37 | a new producer has published nothing |
| Eventos.ProdutorEventos.PublicarEvento | src/main/java/com/itau/seguros/solicitacao/infrastructure/messaging/SolicitacaoEventProducer.java:44-57 | appends exactly the given event to the published log |
| Repositorio.RepositorioSolicitacoes.constructor | src/main/java/com/itau/seguros/solicitacao/domain/repository/SolicitacaoRepository.java:20 | an empty store, which satisfies the store invariant |
| Repositorio.RepositorioSolicitacoes.FindById | src/main/java/com/itau/seguros/solicitacao/domain/repository/SolicitacaoRepository.java:20 | finds the stored entity exactly when the id is stored, and that entity carries the id and is valid |
| Repositorio.RepositorioSolicitacoes.Save | src/main/java/com/itau/seguros/solicitacao/domain/repository/SolicitacaoRepository.java:20 | stores the entity under its own id, logs one save, returns the entity and keeps the store invariant |
| Fluxo.AplicarTransicao | src/main/java/com/itau/seguros/solicitacao/application/service/SolicitacaoService.java:200-237 | an illegal move throws before any save or publication; a legal one applies `Alterar`, saves once and publishes the given event if there is one, keeping the store invariant |
| Servico.HistoricoParaDTO | src/main/java/com/itau/seguros/solicitacao/application/service/SolicitacaoService.java:257-263 | the response history has one entry per history entry, copying the status, time and note, in order |
| Servico.MapearParaResponseDTO | src/main/java/com/itau/seguros/solicitacao/application/service/SolicitacaoService.java:256-281 | the response reports the entity's id, status, `finishedAt` and history entries. For a valid entity the response is itself consistent: its history starts at RECEBIDO and ends at its status, and `finishedAt` is present exactly when the status is final |
| Servico.ChecagensDeCriacao | src/main/java/com/itau/seguros/solicitacao/application/service/SolicitacaoService.java:68-87 | creation proceeds exactly when there is a coverage, all coverages are positive, their sum is within the insured amount and the assistance list is present; missing or empty coverages, and a non-empty map with every value present whose sum exceeds the insured amount, give the "Soma das coberturas…" IllegalArgumentException; a null value gives NullPointerException; a non-positive value, once the sum check passes, gives the "Todos os valores…" one |
| Servico.ChecarRequisicao | src/main/java/com/itau/seguros/solicitacao/application/service/SolicitacaoService.java:68-87 | creation passes its checks exactly when the sum check returns true, every value is positive and the assistance list is present; a null coverage value propagates NullPointerException; a failed sum check (null, empty or exceeded) throws IllegalArgumentException "Soma das coberturas…"; a missing assistance list after both checks pass throws NullPointerException |
| Servico.Cancelamento | src/main/java/com/itau/seguros/solicitacao/application/service/SolicitacaoService.java:150-157 | cancellation succeeds exactly from RECEBIDO, VALIDADO or PENDENTE, ending CANCELADA and saved with no event; otherwise it throws IllegalStateException naming the current status |
| Servico.CancelamentoFinaliza | src/main/java/com/itau/seguros/solicitacao/application/service/SolicitacaoService.java:156-157 | a cancellation appends (CANCELADA, "Cancelamento solicitado pelo cliente"), stamps `finishedAt`, keeps the invariant, and a second cancellation throws |
| Servico.Validacao | src/main/java/com/itau/seguros/solicitacao/application/service/SolicitacaoService.java:186-237 | a gateway exception propagates. An eligible request asks for VALIDADO with a validated event carrying the classification. An ineligible one asks for REJEITADA with the rule's message in a rejected event. The step succeeds exactly when the table allows that move, and then saves |
| Servico.ValidacaoDeRecebido | src/main/java/com/itau/seguros/solicitacao/application/service/SolicitacaoService.java:217-244 | from RECEBIDO the step succeeds exactly when the amount is eligible, appending the validation entry; an ineligible request throws "Transição de RECEBIDO para REJEITADA não é permitida" instead of being rejected |
| Servico.ValidacaoReentregue | src/main/java/com/itau/seguros/solicitacao/application/service/SolicitacaoService.java:170-248 | with no status guard, a redelivery to a VALIDADO or PENDENTE request throws when eligible and rejects the request when ineligible |
| Servico.ValidacaoNaoMudaFinal | src/main/java/com/itau/seguros/solicitacao/application/service/SolicitacaoService.java:194-237 | validation of a request in a final status always throws |
| Servico.SolicitacaoService.constructor | src/main/java/com/itau/seguros/solicitacao/application/service/SolicitacaoService.java:42-50 | the service holds the given repository and producer |
| Servico.SolicitacaoService.CriarSolicitacao | src/main/java/com/itau/seguros/solicitacao/application/service/SolicitacaoService.java:58-110 | a failed check throws the check's exception, saving and publishing nothing. Otherwise it stores one new RECEBIDO entity built from the request under a fresh id, saves it once, publishes exactly one received event with that id, customer, product, category and insured amount, and answers that entity's response |
| Servico.SolicitacaoService.CancelarSolicitacao | src/main/java/com/itau/seguros/solicitacao/application/service/SolicitacaoService.java:147-163 | an unknown id answers empty and changes nothing. Otherwise the stored request takes the `Cancelamento` step: on failure nothing changes; on success one save and the response. It publishes nothing and no other request changes |
| Servico.SolicitacaoService.ProcessarValidacao | src/main/java/com/itau/seguros/solicitacao/application/service/SolicitacaoService.java:170-248 | an unknown id changes nothing. Otherwise the stored request takes the `Validacao` step on its own category and insured amount: a failure changes nothing and rethrows; success saves once and publishes the step's event. No other request changes |
| Pagamento.AposPagamentoConfirmado | src/main/java/com/itau/seguros/solicitacao/infrastructure/messaging/PagamentoEventConsumer.java:53-77 | VALIDADO becomes PENDENTE with "Pagamento confirmado, aguardando subscrição", saved and still unfinished; every other status (PENDENTE included) is left alone with no save; no event is ever published; the invariant is kept |
| Pagamento.PagamentoIdempotente | src/main/java/com/itau/seguros/solicitacao/infrastructure/messaging/PagamentoEventConsumer.java:62-77 | delivering the confirmation a second time changes nothing and saves nothing |
| Pagamento.PagamentoEventConsumer.constructor | src/main/java/com/itau/seguros/solicitacao/infrastructure/messaging/PagamentoEventConsumer.java:31-34 | the consumer holds the given repository and producer |
| Pagamento.PagamentoEventConsumer.ProcessarPagamentoConfirmado | src/main/java/com/itau/seguros/solicitacao/infrastructure/messaging/PagamentoEventConsumer.java:43-88 | an unknown id changes nothing; otherwise the stored request takes the `AposPagamentoConfirmado` step; nothing is published and no other request changes |
| Subscricao.Motivo | src/main/java/com/itau/seguros/solicitacao/infrastructure/messaging/SubscricaoEventConsumer.java:83-84 | the message's reason when present, else "Subscrição negada pelo subscritor" |
| Subscricao.AposSubscricao | src/main/java/com/itau/seguros/solicitacao/infrastructure/messaging/SubscricaoEventConsumer.java:66-100 | a status other than PENDENTE is left alone. From PENDENTE: a missing flag throws NullPointerException; authorised gives APROVADA with "Subscrição autorizada", saved, with no event; refused gives REJEITADA with the reason, saved, with one rejection event carrying REGULAR and that reason |
| Subscricao.DecisaoFinal | src/main/java/com/itau/seguros/solicitacao/infrastructure/messaging/SubscricaoEventConsumer.java:66-87 | both decisions end in a final status with `finishedAt` set to the decision's time and the invariant kept, and any later delivery is a no-op |
| Subscricao.SubscricaoEventConsumer.constructor | src/main/java/com/itau/seguros/solicitacao/infrastructure/messaging/SubscricaoEventConsumer.java:33-36 | the consumer holds the given repository and producer |
| Subscricao.SubscricaoEventConsumer.ProcessarSubscricaoAutorizada | src/main/java/com/itau/seguros/solicitacao/infrastructure/messaging/SubscricaoEventConsumer.java:45-109 | an unknown id changes nothing. Otherwise the stored request takes the `AposSubscricao` step: a failure changes nothing; success saves once and publishes the step's event. No other request changes |
| Cenarios.CaminhoDeAprovacao | src/main/java/com/itau/seguros/solicitacao/domain/model/StatusSolicitacao.java:41-45 | an eligible request that is validated, paid and authorised ends APROVADA with history RECEBIDO, VALIDADO, PENDENTE, APROVADA and `finishedAt` set to the approval time, publishing only the validation event on the way |
| Cenarios.IneligivelFicaRecebido | src/main/java/com/itau/seguros/solicitacao/application/service/SolicitacaoService.java:217-244 | an ineligible new request: validation throws, and payment and underwriting messages are then ignored; only cancellation still applies |
| Cenarios.CaminhoDeRecusa | src/main/java/com/itau/seguros/solicitacao/infrastructure/messaging/SubscricaoEventConsumer.java:81-100 | a validated, paid request refused by the underwriter ends REJEITADA and finished, with the underwriter's reason as its last note and in the published rejection event |

## Left out

- HTTP layer (controllers, exception-to-status mapping), RabbitMQ wiring, metrics, logging and MDC tracing: framework glue with no domain behaviour.
- Transactions and concurrent message delivery: the model is sequential. A rollback is never needed in the model, because every modelled exception is raised before the first change.
- `LocalDateTime.now()` and `UUID.randomUUID()`. The time of each handler is a parameter, and the separate `now()` calls inside one `alterarStatus` are modelled as one instant. So are the constructor's `createdAt` and the timestamp of its first history entry, which the source reads from two `now()` calls.
- Entity id assignment. The id the persistence layer generates at `save` is a parameter of `CriarSolicitacao`, given to the entity when it is built and required to be unused.
- The fraud gateway is not part of this model. Its answer (a classification, or the exception it throws) is a parameter of `ProcessarValidacao`, so the model does not record whether the gateway was called.
- Message decoding in the consumers. The consumers take the id, the `autorizado` flag and the reason already decoded. `UUID.fromString` failures, `ClassCastException`s, and a `motivoRejeicao` key that is present with a null value are left out.
- Null `insuredAmount`, `customerId` or `category` in a request: the declared `@NotNull` constraints exclude them before the service runs.
- Amounts with more than two fraction digits, and the printing of `BigDecimal`s whose scale is not 2. Every amount is cents, and `FormatarValor` prints scale-2 values, which is what the limits and stored amounts have.
- Failure of the message broker when publishing (`RuntimeException("Falha ao publicar evento")`), and each event's own random id and creation time.
- `buscarPorId`, `buscarPorCustomerId` and the repository's JPQL queries: read-only lookups outside the modelled lifecycle.
- The order of the coverage map. `Map<String, BigDecimal>` is a sequence of named entries with distinct names. Its iteration order is left open, and `SomaIndependeDaOrdem` shows the sum does not depend on it.
