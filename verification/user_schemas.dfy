/**
 * The tax-id validators of the user request bodies: keep the digits, accept
 * 11 (CPF) or 14 (CNPJ) of them, refuse anything else. A refusal is a
 * ValueError, which the web framework answers with status 422.
 */
module UserSchemas {
  import opened Outcomes
  import opened Documents

  /** The validator of the creation body: the digits of `v` when there are 11 or 14 of them. */
  function CleanCnpjCpf(v: string): (r: Result<string>)
    ensures r.Ok? <==> |OnlyDigits(v)| == 11 || |OnlyDigits(v)| == 14
    ensures r.Ok? ==> r.value == OnlyDigits(v) && AllDigits(r.value)
    ensures r.Err? ==> r.code == UnprocessableEntity
  {
    var cleaned := OnlyDigits(v);
    if |cleaned| != 11 && |cleaned| != 14 then Err(UnprocessableEntity) else Ok(cleaned)
  }

  /** The validator of the update body: an absent value passes, a present one is validated as above. */
  function CleanCnpjCpfOpcional(v: Option<string>): (r: Result<Option<string>>)
    ensures v.None? ==> r == Ok(None)
    ensures v.Some? ==> (r.Ok? <==> CleanCnpjCpf(v.value).Ok?)
    ensures v.Some? && r.Ok? ==> r.value == Some(OnlyDigits(v.value))
    ensures r.Err? ==> r.code == UnprocessableEntity
  {
    match v
    case None => Ok(None)
    case Some(s) =>
      var c := CleanCnpjCpf(s);
      if c.Err? then Err(c.code) else Ok(Some(c.value))
  }

  /** Validating an accepted value accepts it again, unchanged. */
  lemma CleanCnpjCpfIdempotent(v: string)
    requires CleanCnpjCpf(v).Ok?
    ensures CleanCnpjCpf(CleanCnpjCpf(v).value) == CleanCnpjCpf(v)
  {
  }

  /**
   * A validated id always takes one of the two masked branches of the formatter:
   * it comes back punctuated as a CPF or as a CNPJ, never unformatted.
   */
  lemma ValidatedIsMasked(v: string)
    requires CleanCnpjCpf(v).Ok?
    ensures var c := CleanCnpjCpf(v).value;
      var f := FormatarCpfCnpj(c);
      (|c| == 11 && Shaped(f, CpfMask) && Slots(f, CpfMask) == c)
      || (|c| == 14 && Shaped(f, CnpjMask) && Slots(f, CnpjMask) == c)
    ensures FormatarCpfCnpj(CleanCnpjCpf(v).value) != CleanCnpjCpf(v).value
  {
    var c := CleanCnpjCpf(v).value;
    var f := FormatarCpfCnpj(c);
    assert OnlyDigits(c) == c;
    if |c| == 11 {
      assert f[3] == '.' && !IsDigit(f[3]);
    } else {
      assert f[2] == '.' && !IsDigit(f[2]);
    }
  }
}
