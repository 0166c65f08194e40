/** The service-code resolver: from an activity (CNAE) code to the legal service-list code. */
module CnaeListaServicos {
  import opened Outcomes
  import opened Models

  /** Some row of the table carries exactly this CNAE code. */
  predicate TemCnae(tabela: seq<CnaeListaAtividades>, cnae: string) {
    exists i :: 0 <= i < |tabela| && tabela[i].cnaeNumerico == cnae
  }

  /**
   * The service code of a row whose CNAE equals `cnae` exactly, or None when no
   * row does. The query takes one matching row without an ordering; the model
   * takes the first in table order.
   */
  function GetCodigoServicoByCnae(tabela: seq<CnaeListaAtividades>, cnae: string): (r: Option<string>)
    ensures r.None? <==> !TemCnae(tabela, cnae)
    ensures r.Some? ==>
      exists i :: 0 <= i < |tabela| && tabela[i].cnaeNumerico == cnae && tabela[i].codigoListaServico == r.value
  {
    if tabela == [] then None
    else if tabela[0].cnaeNumerico == cnae then Some(tabela[0].codigoListaServico)
    else
      var r := GetCodigoServicoByCnae(tabela[1..], cnae);
      assert TemCnae(tabela, cnae) ==> TemCnae(tabela[1..], cnae) by {
        if TemCnae(tabela, cnae) {
          var i :| 0 <= i < |tabela| && tabela[i].cnaeNumerico == cnae;
          assert i > 0 && tabela[1..][i - 1] == tabela[i];
        }
      }
      assert r.Some? ==> exists i :: 0 <= i < |tabela| && tabela[i].cnaeNumerico == cnae && tabela[i].codigoListaServico == r.value by {
        if r.Some? {
          var j :| 0 <= j < |tabela[1..]| && tabela[1..][j].cnaeNumerico == cnae && tabela[1..][j].codigoListaServico == r.value;
          assert tabela[j + 1] == tabela[1..][j];
        }
      }
      r
  }

  /**
   * Matching is plain string equality: a code written with punctuation does not
   * find the row stored without it, and the other way round.
   */
  lemma CnaeSemNormalizacao()
    ensures GetCodigoServicoByCnae([CnaeListaAtividades(1, "6201501", "Desenvolvimento", "0107", "Programas")], "6201-5/01") == None
    ensures GetCodigoServicoByCnae([CnaeListaAtividades(1, "6201-5/01", "Desenvolvimento", "0107", "Programas")], "6201501") == None
    ensures GetCodigoServicoByCnae([CnaeListaAtividades(1, "6201501", "Desenvolvimento", "0107", "Programas")], "6201501") == Some("0107")
  {
  }

  /** The administrators' listing of the table: every row for role 1, 403 for anyone else. */
  function GetCnaeAtividade(tabela: seq<CnaeListaAtividades>, roleId: int): (r: Result<seq<CnaeListaAtividades>>)
    ensures roleId != Admin <==> r == Err(Forbidden)
    ensures roleId == Admin ==> r == Ok(tabela)
  {
    if roleId != Admin then Err(Forbidden) else Ok(tabela)
  }
}
