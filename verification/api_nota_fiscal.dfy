/**
 * The invoice routes' own logic: the creation flow (find or create the client,
 * resolve the service code, insert the invoice), the administrator guards of
 * rejection and approval, the unguarded status route and the edit's mapping of
 * "not found" to 404.
 */
module ApiNotaFiscal {
  import opened Outcomes
  import opened Models
  import opened NotaStatus
  import opened Store
  import opened CrudCliente
  import opened CnaeListaServicos
  import opened CrudNotaFiscal

  /**
   * Invoice creation by `atual`: reuse `atual`'s client with the request's
   * document, or create it; 400 when the CNAE code has no service code, in which
   * case a client created on the way stays; otherwise a pending invoice of
   * `atual` for that client, at `atual`'s tax rate and with the resolved service
   * code. Several clients with the document make the lookup fail with 500.
   */
  method EmitirNota(db: Database, dados: NotaFiscalCreate, atual: Usuario) returns (r: Result<NotaFiscal>)
    requires db.Valid() && atual.id in db.usuarios && db.usuarios[atual.id] == atual
    modifies db`notas, db`proximaNota, db`clientes, db`proximoCliente
    ensures db.Valid()
    ensures r.Err? ==> db.notas == old(db.notas) && db.proximaNota == old(db.proximaNota)
    ensures r.Ok? ==> db.proximaNota == old(db.proximaNota) + 1
    ensures var achados := Correspondentes(old(db.clientes), Some(dados.cpfCnpj), atual.id);
      && (|achados| > 1 ==> r == Err(InternalServerError))
      && (achados != {} ==> db.clientes == old(db.clientes) && db.proximoCliente == old(db.proximoCliente))
      && (|achados| <= 1 ==>
           (r.Err? <==> GetCodigoServicoByCnae(db.cnae, dados.codCnae).None?) && (r.Err? ==> r.code == BadRequest))
      && (achados == {} ==>
           old(db.proximoCliente) !in old(db.clientes)
           && db.clientes == old(db.clientes)[old(db.proximoCliente) :=
                NovoCliente(old(db.proximoCliente), atual.id, ClienteDoPedido(dados))]
           && db.proximoCliente == old(db.proximoCliente) + 1)
      && (r.Ok? ==>
           && r.value.id == old(db.proximaNota) && r.value.id !in old(db.notas)
           && db.notas == old(db.notas)[r.value.id := r.value]
           && r.value == NotaFiscal(r.value.id, atual.id, r.value.clienteId, None, None, dados.valorTotal,
                dados.descricao, Pendente, Some(dados.codCnae), atual.aliquota, None,
                GetCodigoServicoByCnae(db.cnae, dados.codCnae))
           && r.value.clienteId.Some?
           && (achados == {} ==> r.value.clienteId.value == old(db.proximoCliente))
           && (forall k :: achados == {k} ==> r.value.clienteId.value == k))
    ensures r.Ok? ==> var c := r.value.clienteId.value;
      c in db.clientes && db.clientes[c].usuarioId == atual.id && db.clientes[c].cpfCnpj == Some(dados.cpfCnpj)
  {
    var existente := GetClienteByCpfCnpj(db, Some(dados.cpfCnpj), atual.id);
    if existente.Err? {
      return Err(existente.code);
    }
    var cliente: Cliente;
    if existente.value.None? {
      var criado := CreateCliente(db, ClienteDoPedido(dados), atual.id);
      assert criado.Ok?;
      cliente := criado.value;
    } else {
      cliente := existente.value.value;
    }
    var codigoListaServico := GetCodigoServicoByCnae(db.cnae, dados.codCnae);
    if codigoListaServico.None? {
      return Err(BadRequest);
    }
    var nota := CreateNotaFiscal(db, NotaFiscalDados(atual.id, Some(cliente.id), Some(dados.codCnae), dados.valorTotal,
      dados.descricao, Pendente, atual.aliquota, codigoListaServico));
    r := Ok(nota);
  }

  /**
   * The rejection route: 403 for anyone but an administrator, before the invoice
   * is looked at; otherwise the rejection's own outcome, whose unknown id is a 500.
   */
  method RecusarNota(db: Database, atual: Usuario, notaId: int, statusId: int, descMotivo: string)
    returns (r: Result<NotaFiscal>)
    requires db.Valid()
    modifies db`notas
    ensures db.Valid()
    ensures atual.roleId != Admin ==> r == Err(Forbidden)
    ensures atual.roleId == Admin && notaId !in old(db.notas) ==> r == Err(InternalServerError)
    ensures atual.roleId == Admin && notaId in old(db.notas) ==>
      (r == Err(BadRequest) <==> old(db.notas)[notaId].statusId != Pendente)
    ensures atual.roleId == Admin && notaId in old(db.notas) && old(db.notas)[notaId].statusId == Pendente ==> r.Ok?
    ensures r.Err? ==> db.notas == old(db.notas)
    ensures r.Ok? ==>
      && atual.roleId == Admin && notaId in old(db.notas)
      && Transicao(Recusar(statusId), old(db.notas)[notaId].statusId) == Some(r.value.statusId)
      && r.value == old(db.notas)[notaId].(statusId := statusId, descMotivo := Some(descMotivo))
      && db.notas == old(db.notas)[notaId := r.value]
  {
    if atual.roleId != Admin {
      return Err(Forbidden);
    }
    r := RecusarNotaFiscal(db, notaId, statusId, descMotivo);
  }

  /**
   * The approval route: 403 for anyone but an administrator, before the invoice
   * is looked at; 404 for an unknown id; otherwise the approval's own outcome.
   */
  method AprovarNota(db: Database, atual: Usuario, notaId: int) returns (r: Result<NotaFiscal>)
    requires db.Valid()
    modifies db`notas
    ensures db.Valid()
    ensures atual.roleId != Admin ==> r == Err(Forbidden)
    ensures atual.roleId == Admin && notaId !in old(db.notas) ==> r == Err(NotFound)
    ensures atual.roleId == Admin && notaId in old(db.notas) ==>
      (r == Err(BadRequest) <==> old(db.notas)[notaId].statusId != Pendente)
    ensures atual.roleId == Admin && notaId in old(db.notas) && old(db.notas)[notaId].statusId == Pendente ==> r.Ok?
    ensures r.Err? ==> db.notas == old(db.notas)
    ensures r.Ok? ==>
      && atual.roleId == Admin && notaId in old(db.notas)
      && Transicao(Aprovar, old(db.notas)[notaId].statusId) == Some(r.value.statusId)
      && r.value == old(db.notas)[notaId].(statusId := Aprovada)
      && db.notas == old(db.notas)[notaId := r.value]
  {
    if atual.roleId != Admin {
      return Err(Forbidden);
    }
    var nota := AprovarNotaFiscal(db, notaId);
    if nota.Err? {
      return Err(nota.code);
    }
    if nota.value.None? {
      return Err(NotFound);
    }
    r := Ok(nota.value.value);
  }

  /**
   * The status route: no caller at all, so no role or ownership check; any
   * status on any existing invoice. An unknown id produces no invoice to return,
   * which fails response validation with 500.
   */
  method AtualizarStatus(db: Database, notaId: int, statusId: int) returns (r: Result<NotaFiscal>)
    requires db.Valid()
    modifies db`notas
    ensures db.Valid()
    ensures r.Err? <==> notaId !in old(db.notas)
    ensures r.Err? ==> r.code == InternalServerError && db.notas == old(db.notas)
    ensures r.Ok? ==>
      && r.value == old(db.notas)[notaId].(statusId := statusId)
      && db.notas == old(db.notas)[notaId := r.value]
  {
    var nota := UpdateStatusNota(db, notaId, statusId);
    if nota.None? {
      return Err(InternalServerError);
    }
    r := Ok(nota.value);
  }

  /**
   * The edit route: the edit for `atual`, with "not the caller's invoice" (None)
   * answered 404 and nothing changed.
   */
  method AtualizarNota(db: Database, notaId: int, atual: Usuario, dados: NotaFiscalCreate) returns (r: Result<NotaFiscal>)
    requires db.Valid() && atual.id in db.usuarios
    modifies db`notas, db`clientes, db`proximoCliente
    ensures db.Valid()
    ensures !(notaId in old(db.notas) && old(db.notas)[notaId].usuarioId == atual.id) ==> r == Err(NotFound)
    ensures notaId in old(db.notas) && old(db.notas)[notaId].usuarioId == atual.id ==>
      (r.Err? <==> GetCodigoServicoByCnae(db.cnae, dados.codCnae).None?) && (r.Err? ==> r.code == BadRequest)
    ensures r.Err? ==>
      db.notas == old(db.notas) && db.clientes == old(db.clientes) && db.proximoCliente == old(db.proximoCliente)
    ensures r.Ok? ==>
      var antiga := old(db.notas)[notaId];
      && notaId in old(db.notas) && antiga.usuarioId == atual.id
      && Transicao(Editar, antiga.statusId) == Some(r.value.statusId)
      && r.value.clienteId.Some?
      && r.value == antiga.(clienteId := r.value.clienteId, codCnae := Some(dados.codCnae),
           valorTotal := dados.valorTotal, descricao := dados.descricao, statusId := Pendente, descMotivo := Some(""))
      && db.notas == old(db.notas)[notaId := r.value]
      && var c := r.value.clienteId.value;
      && (antiga.clienteId.Some? ==>
           c == antiga.clienteId.value && db.proximoCliente == old(db.proximoCliente)
           && db.clientes.Keys == old(db.clientes).Keys
           && (forall k :: k in db.clientes && k != c ==> db.clientes[k] == old(db.clientes)[k])
           && ClienteEditado(old(db.clientes)[c], db.clientes[c], dados, atual.id))
      && (antiga.clienteId.None? ==>
           c == old(db.proximoCliente) && c !in old(db.clientes)
           && db.clientes == old(db.clientes)[c := NovoCliente(c, atual.id, ClienteDoPedido(dados))]
           && db.proximoCliente == old(db.proximoCliente) + 1)
  {
    var nota := UpdateNotaFiscal(db, notaId, atual.id, dados);
    if nota.Err? {
      return Err(nota.code);
    }
    if nota.value.None? {
      return Err(NotFound);
    }
    r := Ok(nota.value.value);
  }
}
