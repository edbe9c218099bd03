/**
 * Client intake in app.js: the `Cliente` record built at registration, its digits-only phone,
 * and the contraindication list derived from the health questionnaire (anamnese). The same
 * ten checks are made again, in another order, when a client is picked for scheduling.
 */
module Intake {
  import opened Wrappers
  import opened Seqs
  import opened Basics

  /** The questionnaire as the registration form collects it; unchecked text boxes give "". */
  datatype Anamnese = Anamnese(
    maiorIdade: bool,
    responsibleSignature: string,
    fototipo: string,
    alergias: string,
    medicamentos: string,
    gestante: bool,
    doencasPele: string,
    cirurgiaRecente: string,
    problemasCardiacos: string,
    hipertensao: bool,
    diabetes: bool,
    cancer: string,
    tratamentoDermatologico: string)

  /** The ten conditions the questionnaire can raise. */
  datatype Condicao =
    | Alergias | Medicamentos | Gestante | DoencasPele | CirurgiaRecente
    | ProblemasCardiacos | Hipertensao | Diabetes | Cancer | TratamentoDermatologico

  /** The characters `String.prototype.trim` removes (JavaScript white space and line terminators). */
  predicate IsSpace(c: char)
  {
    || c == ' ' || c == '\t' || c == '\n' || c == '\r' || c == '\U{000B}' || c == '\U{000C}'
    || c == '\U{00A0}' || c == '\U{1680}' || ('\U{2000}' <= c <= '\U{200A}')
    || c == '\U{2028}' || c == '\U{2029}' || c == '\U{202F}' || c == '\U{205F}'
    || c == '\U{3000}' || c == '\U{FEFF}'
  }

  /** `s.trimStart()`. */
  function TrimStart(s: string): (r: string)
    ensures |r| <= |s| && r == s[|s| - |r|..]
    ensures |r| > 0 ==> !IsSpace(r[0])
    ensures forall i :: 0 <= i < |s| - |r| ==> IsSpace(s[i])
  {
    if |s| > 0 && IsSpace(s[0]) then TrimStart(s[1..]) else s
  }

  /** `s.trimEnd()`. */
  function TrimEnd(s: string): (r: string)
    ensures |r| <= |s| && r == s[..|r|]
    ensures |r| > 0 ==> !IsSpace(r[|r| - 1])
    ensures forall i :: |r| <= i < |s| ==> IsSpace(s[i])
  {
    if |s| > 0 && IsSpace(s[|s| - 1]) then TrimEnd(s[..|s| - 1]) else s
  }

  /** `s.trim()`. */
  function Trim(s: string): (r: string)
    ensures |r| <= |s|
    ensures |r| > 0 ==> !IsSpace(r[0]) && !IsSpace(r[|r| - 1])
    ensures exists i :: Recorte(s, r, i)
  {
    var t := TrimStart(s);
    var r := TrimEnd(t);
    assert Recorte(s, r, |s| - |t|);
    r
  }

  /** `r` is `s` from index `i` on, less white space at both ends. */
  predicate Recorte(s: string, r: string, i: int)
  {
    0 <= i <= |s| - |r| && r == s[i..i + |r|]
    && (forall k :: 0 <= k < i ==> IsSpace(s[k]))
    && (forall k :: i + |r| <= k < |s| ==> IsSpace(s[k]))
  }

  /** `s && s.trim() !== ''`: the text box holds something other than white space. */
  predicate Preenchido(s: string)
  {
    Trim(s) != ""
  }

  /** A text answer counts exactly when it has a character that is not white space. */
  lemma PreenchidoIff(s: string)
    ensures Preenchido(s) <==> exists i :: 0 <= i < |s| && !IsSpace(s[i])
  {
    var t := TrimStart(s);
    if Preenchido(s) {
      var r := TrimEnd(t);
      assert r[0] == t[0] == s[|s| - |t|];
    }
  }

  /** Whether the questionnaire raises a condition. */
  predicate Ativa(a: Anamnese, c: Condicao)
  {
    match c
    case Alergias => Preenchido(a.alergias)
    case Medicamentos => Preenchido(a.medicamentos)
    case Gestante => a.gestante
    case DoencasPele => Preenchido(a.doencasPele)
    case CirurgiaRecente => Preenchido(a.cirurgiaRecente)
    case ProblemasCardiacos => Preenchido(a.problemasCardiacos)
    case Hipertensao => a.hipertensao
    case Diabetes => a.diabetes
    case Cancer => Preenchido(a.cancer)
    case TratamentoDermatologico => Preenchido(a.tratamentoDermatologico)
  }

  /** The line shown for a raised condition. */
  function Texto(a: Anamnese, c: Condicao): string
  {
    match c
    case Alergias => "Alergias: " + a.alergias
    case Medicamentos => "Medicamentos em uso: " + a.medicamentos
    case Gestante => "Gestante ou Amamentando"
    case DoencasPele => "Doenças de Pele: " + a.doencasPele
    case CirurgiaRecente => "Cirurgias Recentes: " + a.cirurgiaRecente
    case ProblemasCardiacos => "Problemas Cardíacos: " + a.problemasCardiacos
    case Hipertensao => "Hipertensão"
    case Diabetes => "Diabetes"
    case Cancer => "Histórico de Câncer: " + a.cancer
    case TratamentoDermatologico => "Tratamento Dermatológico: " + a.tratamentoDermatologico
  }

  /**
   * Reference definition: the lines `linha` gives for each condition of `ordem`, appended in
   * order, as the checks push them onto the list.
   */
  function Coletar(linha: Condicao -> seq<string>, ordem: seq<Condicao>): seq<string>
    decreases |ordem|
  {
    if |ordem| == 0 then []
    else Coletar(linha, ordem[..|ordem| - 1]) + linha(ordem[|ordem| - 1])
  }

  /** The order of the checks at registration (`verificarContraindicacoes`). */
  const OrdemCadastro: seq<Condicao> := [
    Alergias, Medicamentos, Gestante, DoencasPele, CirurgiaRecente,
    ProblemasCardiacos, Hipertensao, Diabetes, Cancer, TratamentoDermatologico]

  /** The order of the checks when a client is picked for scheduling. */
  const OrdemAgendamento: seq<Condicao> := [
    Gestante, DoencasPele, CirurgiaRecente, ProblemasCardiacos, Hipertensao,
    Diabetes, Cancer, TratamentoDermatologico, Alergias, Medicamentos]

  /** The piece one check contributes: its line if the condition is raised, else nothing. */
  function Linha(a: Anamnese, c: Condicao): (r: seq<string>)
    ensures r == [] <==> !Ativa(a, c)
    ensures r != [] ==> r == [Texto(a, c)]
  {
    if Ativa(a, c) then [Texto(a, c)] else []
  }

  /** The checks of one questionnaire, as a function of the condition. */
  function Linhas(a: Anamnese): Condicao -> seq<string>
  {
    c => Linha(a, c)
  }

  /** `verificarContraindicacoes`: ten checks, each pushing its line when the condition is raised. */
  function VerificarContraindicacoes(a: Anamnese): (r: seq<string>)
    ensures r == Coletar(Linhas(a), OrdemCadastro)
    ensures r == [] <==> forall c :: !Ativa(a, c)
  {
    ColetarOrdemCadastro(Linhas(a));
    CadastroVazioSemCondicoes(a);
    Linha(a, Alergias) + Linha(a, Medicamentos) + Linha(a, Gestante) + Linha(a, DoencasPele) +
    Linha(a, CirurgiaRecente) + Linha(a, ProblemasCardiacos) + Linha(a, Hipertensao) +
    Linha(a, Diabetes) + Linha(a, Cancer) + Linha(a, TratamentoDermatologico)
  }

  /** The same ten checks in the scheduling listener's order. */
  function ContraindicacoesAoAgendar(a: Anamnese): (r: seq<string>)
    ensures r == Coletar(Linhas(a), OrdemAgendamento)
  {
    ColetarOrdemAgendamento(Linhas(a));
    Linha(a, Gestante) + Linha(a, DoencasPele) + Linha(a, CirurgiaRecente) +
    Linha(a, ProblemasCardiacos) + Linha(a, Hipertensao) + Linha(a, Diabetes) +
    Linha(a, Cancer) + Linha(a, TratamentoDermatologico) + Linha(a, Alergias) +
    Linha(a, Medicamentos)
  }

  /** Collecting over a concatenation of orders concatenates the lines. */
  lemma {:induction false} ColetarAppend(linha: Condicao -> seq<string>, o1: seq<Condicao>, o2: seq<Condicao>)
    ensures Coletar(linha, o1 + o2) == Coletar(linha, o1) + Coletar(linha, o2)
    decreases |o2|
  {
    if |o2| == 0 {
      assert o1 + o2 == o1;
    } else {
      var n := |o2| - 1;
      assert (o1 + o2)[..|o1 + o2| - 1] == o1 + o2[..n];
      assert (o1 + o2)[|o1 + o2| - 1] == o2[n];
      ColetarAppend(linha, o1, o2[..n]);
    }
  }

  /** One check more: collecting over one more condition appends its line. */
  lemma Passo(linha: Condicao -> seq<string>, o: seq<Condicao>, k: nat)
    requires k < |o|
    ensures Coletar(linha, o[..k + 1]) == Coletar(linha, o[..k]) + linha(o[k])
  {
    assert o[..k + 1][..k] == o[..k];
  }

  /** Nothing is collected exactly when every condition of the order contributes nothing. */
  lemma {:induction false} ColetarVazio(linha: Condicao -> seq<string>, o: seq<Condicao>)
    ensures Coletar(linha, o) == [] <==> forall i :: 0 <= i < |o| ==> linha(o[i]) == []
    decreases |o|
  {
    if |o| > 0 {
      var n := |o| - 1;
      ColetarVazio(linha, o[..n]);
      assert forall i :: 0 <= i < n ==> o[i] == o[..n][i];
    }
  }

  /** Collecting in registration order is the ten checks appended one after another. */
  lemma ColetarOrdemCadastro(l: Condicao -> seq<string>)
    ensures Coletar(l, OrdemCadastro) ==
      l(Alergias) + l(Medicamentos) + l(Gestante) + l(DoencasPele) + l(CirurgiaRecente) +
      l(ProblemasCardiacos) + l(Hipertensao) + l(Diabetes) + l(Cancer) + l(TratamentoDermatologico)
  {
    var o := OrdemCadastro;
    assert o[..0] == [];
    Passo(l, o, 0); Passo(l, o, 1); Passo(l, o, 2); Passo(l, o, 3); Passo(l, o, 4);
    Passo(l, o, 5); Passo(l, o, 6); Passo(l, o, 7); Passo(l, o, 8); Passo(l, o, 9);
    assert o[..10] == o;
  }

  /** Collecting in the scheduling listener's order is its ten checks appended one after another. */
  lemma ColetarOrdemAgendamento(l: Condicao -> seq<string>)
    ensures Coletar(l, OrdemAgendamento) ==
      l(Gestante) + l(DoencasPele) + l(CirurgiaRecente) + l(ProblemasCardiacos) + l(Hipertensao) +
      l(Diabetes) + l(Cancer) + l(TratamentoDermatologico) + l(Alergias) + l(Medicamentos)
  {
    var o := OrdemAgendamento;
    assert o[..0] == [];
    Passo(l, o, 0); Passo(l, o, 1); Passo(l, o, 2); Passo(l, o, 3); Passo(l, o, 4);
    Passo(l, o, 5); Passo(l, o, 6); Passo(l, o, 7); Passo(l, o, 8); Passo(l, o, 9);
    assert o[..10] == o;
  }

  /** Every condition is checked at registration. */
  lemma CadastroVerificaTodas(c: Condicao)
    ensures c in OrdemCadastro
  {
    var o := OrdemCadastro;
    match c
    case Alergias => assert o[0] == c;
    case Medicamentos => assert o[1] == c;
    case Gestante => assert o[2] == c;
    case DoencasPele => assert o[3] == c;
    case CirurgiaRecente => assert o[4] == c;
    case ProblemasCardiacos => assert o[5] == c;
    case Hipertensao => assert o[6] == c;
    case Diabetes => assert o[7] == c;
    case Cancer => assert o[8] == c;
    case TratamentoDermatologico => assert o[9] == c;
  }

  /** The registration list is empty exactly when no condition at all is raised. */
  lemma CadastroVazioSemCondicoes(a: Anamnese)
    ensures Coletar(Linhas(a), OrdemCadastro) == [] <==> forall c :: !Ativa(a, c)
  {
    var o := OrdemCadastro;
    ColetarVazio(Linhas(a), o);
    if Coletar(Linhas(a), o) == [] {
      forall c | true
        ensures !Ativa(a, c)
      {
        CadastroVerificaTodas(c);
        var i :| 0 <= i < |o| && o[i] == c;
        assert Linhas(a)(o[i]) == [];
      }
    }
  }

  /**
   * Both places list the same contraindications, only in another order: so a client blocked at
   * scheduling is exactly a client whose registration listed some contraindication.
   */
  lemma MesmasContraindicacoes(a: Anamnese)
    ensures multiset(ContraindicacoesAoAgendar(a)) == multiset(VerificarContraindicacoes(a))
    ensures ContraindicacoesAoAgendar(a) == [] <==> VerificarContraindicacoes(a) == []
  {
    MesmasLinhas(Linhas(a));
    if ContraindicacoesAoAgendar(a) == [] {
      assert |multiset(VerificarContraindicacoes(a))| == 0;
    }
  }

  /** Moving the first `k` checks to the end collects the same lines, in another order. */
  lemma Rotacao(l: Condicao -> seq<string>, o: seq<Condicao>, k: nat)
    requires k <= |o|
    ensures multiset(Coletar(l, o[k..] + o[..k])) == multiset(Coletar(l, o))
  {
    assert o == o[..k] + o[k..];
    ColetarAppend(l, o[k..], o[..k]);
    ColetarAppend(l, o[..k], o[k..]);
  }

  /** The two orders collect the same lines, whatever each condition contributes. */
  lemma MesmasLinhas(l: Condicao -> seq<string>)
    ensures multiset(Coletar(l, OrdemAgendamento)) == multiset(Coletar(l, OrdemCadastro))
  {
    var o := OrdemCadastro;
    assert OrdemAgendamento == o[2..] + o[..2];
    Rotacao(l, o, 2);
  }

  /** `telefone.replace(/\D/g, '')`: every character other than 0-9 removed, the digits kept in order. */
  function ApenasDigitos(s: string): (r: string)
    ensures |r| <= |s|
    ensures forall i :: 0 <= i < |r| ==> IsDigit(r[i])
    ensures forall i :: 0 <= i < |s| && IsDigit(s[i]) ==> s[i] in r
    ensures forall c :: multiset(r)[c] == if IsDigit(c) then multiset(s)[c] else 0
  {
    FilterCounts(s, IsDigit);
    FilterMembers(s, IsDigit);
    Filter(s, IsDigit)
  }

  /** Removing non-digits works piecewise, so the digits keep their relative order. */
  lemma ApenasDigitosAppend(a: string, b: string)
    ensures ApenasDigitos(a + b) == ApenasDigitos(a) + ApenasDigitos(b)
  {
    FilterAppend(a, b, IsDigit);
  }

  /** One character: a digit is kept, anything else becomes the empty string. */
  lemma ApenasDigitosCaractere(c: char)
    ensures ApenasDigitos([c]) == if IsDigit(c) then [c] else []
  {
    FilterSingle(c, IsDigit);
  }

  /** A phone already made of digits is left as it is; so normalising twice is normalising once. */
  lemma ApenasDigitosIdempotente(s: string)
    ensures (forall i :: 0 <= i < |s| ==> IsDigit(s[i])) ==> ApenasDigitos(s) == s
    ensures ApenasDigitos(ApenasDigitos(s)) == ApenasDigitos(s)
  {
    if forall i :: 0 <= i < |s| ==> IsDigit(s[i]) {
      FilterAll(s, IsDigit);
    }
    FilterAll(ApenasDigitos(s), IsDigit);
  }

  /** A client as the app.js registration stores it. */
  datatype Cliente = Cliente(
    id: int,
    nome: string,
    cpf: string,
    telefone: string,
    anamnese: Anamnese,
    formEnviado: bool,
    formRespondido: bool,
    dadosAnamnese: Option<Anamnese>,
    contraindicacoes: seq<string>)

  /**
   * The `Cliente` constructor: the phone reduced to its digits, no questionnaire sent or
   * answered yet, and the contraindications derived from the registration answers.
   */
  function NovoCliente(id: int, nome: string, cpf: string, telefone: string, anamnese: Anamnese): (c: Cliente)
    ensures c.id == id && c.nome == nome && c.cpf == cpf && c.anamnese == anamnese
    ensures c.telefone == ApenasDigitos(telefone)
    ensures forall i :: 0 <= i < |c.telefone| ==> IsDigit(c.telefone[i])
    ensures !c.formEnviado && !c.formRespondido && c.dadosAnamnese.None?
    ensures c.contraindicacoes == Coletar(Linhas(anamnese), OrdemCadastro)
    ensures c.contraindicacoes == [] <==> forall cond :: !Ativa(anamnese, cond)
  {
    Cliente(id, nome, cpf, ApenasDigitos(telefone), anamnese, false, false, None,
      VerificarContraindicacoes(anamnese))
  }

  /** The scheduling listener refuses the client when its checks find something. */
  predicate BloqueadoAoAgendar(c: Cliente)
  {
    ContraindicacoesAoAgendar(c.anamnese) != []
  }

  /**
   * What registration warns about is what scheduling enforces: a newly registered client is
   * refused at scheduling exactly when its registration listed a contraindication.
   */
  lemma BloqueioCoerente(id: int, nome: string, cpf: string, telefone: string, anamnese: Anamnese)
    ensures BloqueadoAoAgendar(NovoCliente(id, nome, cpf, telefone, anamnese))
      <==> NovoCliente(id, nome, cpf, telefone, anamnese).contraindicacoes != []
  {
    MesmasContraindicacoes(anamnese);
  }
}
