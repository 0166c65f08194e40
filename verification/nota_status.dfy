/**
 * The life cycle of an invoice's status, abstracted from the operations that
 * change it: which actions are allowed from which status and where they lead.
 * The store operations in CrudNotaFiscal change `statusId` exactly as `Transicao`
 * says.
 */
module NotaStatus {
  import opened Outcomes
  import opened Models

  /** The actions that write an invoice's status. */
  datatype Acao =
    | Aprovar                        // admin approval
    | Recusar(novoStatus: int)       // admin rejection, to a status the caller chooses
    | Emitir                         // emission at the municipal service, after it accepted
    | Editar                         // the owner's edit of the invoice
    | DefinirStatus(novoStatus: int) // the unguarded status route

  /** The status an action leads to from `de`, or None when the action is refused there. */
  function Transicao(acao: Acao, de: int): (r: Option<int>)
    ensures (acao.Aprovar? || acao.Recusar? || acao.Emitir?) ==> (r.Some? <==> de == Pendente)
    ensures acao.Aprovar? && r.Some? ==> r.value == Aprovada
    ensures acao.Emitir? && r.Some? ==> r.value == Emitida
    ensures acao.Recusar? && r.Some? ==> r.value == acao.novoStatus
    ensures acao.Editar? ==> r == Some(Pendente)
    ensures acao.DefinirStatus? ==> r == Some(acao.novoStatus)
  {
    match acao
    case Aprovar => if de == Pendente then Some(Aprovada) else None
    case Recusar(s) => if de == Pendente then Some(s) else None
    case Emitir => if de == Pendente then Some(Emitida) else None
    case Editar => Some(Pendente)
    case DefinirStatus(s) => Some(s)
  }

  /** The status after a sequence of actions; a refused action leaves the status as it was. */
  function Executar(de: int, acoes: seq<Acao>): int
    decreases acoes
  {
    if acoes == [] then de
    else
      var t := Transicao(acoes[0], de);
      Executar(if t.Some? then t.value else de, acoes[1..])
  }

  /** The actions an administrator or issuer can take through the guarded routes only. */
  predicate SoGuardadas(acoes: seq<Acao>) {
    forall i :: 0 <= i < |acoes| ==> !acoes[i].Editar? && !acoes[i].DefinirStatus?
  }

  /** Outside the pending status only an edit or the unguarded route changes anything. */
  lemma ForaDePendenteSoEdicao(acao: Acao, de: int)
    requires de != Pendente
    ensures Transicao(acao, de).Some? <==> acao.Editar? || acao.DefinirStatus?
  {
  }

  /**
   * Once approved, an invoice stays approved under any sequence of guarded actions:
   * every emission attempt on it is refused, so an approved invoice is never emitted.
   */
  lemma {:induction false} AprovadaNuncaEmitida(acoes: seq<Acao>)
    requires SoGuardadas(acoes)
    ensures Executar(Aprovada, acoes) == Aprovada
    ensures forall i :: 0 <= i < |acoes| ==> Transicao(acoes[i], Executar(Aprovada, acoes[..i])) == None
  {
    if acoes != [] {
      assert SoGuardadas(acoes[1..]) by {
        forall i | 0 <= i < |acoes[1..]|
          ensures !acoes[1..][i].Editar? && !acoes[1..][i].DefinirStatus?
        {
          assert acoes[1..][i] == acoes[i + 1];
        }
      }
      AprovadaNuncaEmitida(acoes[1..]);
      assert Transicao(acoes[0], Aprovada) == None;
      forall i | 0 <= i < |acoes|
        ensures Transicao(acoes[i], Executar(Aprovada, acoes[..i])) == None
      {
        if i == 0 {
          assert acoes[..0] == [];
        } else {
          assert acoes[..i][1..] == acoes[1..][..i - 1];
          assert acoes[1..][i - 1] == acoes[i];
        }
      }
    }
  }

  /** Emission succeeds from the pending status and from no other. */
  lemma EmitidaSoDePendente(de: int)
    ensures Transicao(Emitir, de) == Some(Emitida) <==> de == Pendente
  {
  }

  /** A rejection stores the status the caller supplied: "rejecting" to Emitida marks the invoice emitted without any emission. */
  lemma RecusaArbitraria()
    ensures Transicao(Recusar(Emitida), Pendente) == Some(Emitida)
    ensures Transicao(Recusar(Recusada), Pendente) == Some(Recusada)
  {
  }

  /** An edit brings any invoice back to pending, from where it can be approved or emitted again. */
  lemma {:induction false} EdicaoReabre(de: int)
    ensures Executar(de, [Editar, Emitir]) == Emitida
    ensures Executar(de, [Editar, Aprovar]) == Aprovada
  {
    assert [Editar, Emitir][1..] == [Emitir];
    assert [Editar, Aprovar][1..] == [Aprovar];
    assert [Emitir][1..] == [] && [Aprovar][1..] == [];
  }

  /** Invoices the owners' listing hides: only the rejected status. */
  predicate OcultaDoDono(statusId: int) {
    statusId == Recusada
  }
}
