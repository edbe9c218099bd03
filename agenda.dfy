/**
 * The agenda (agenda.js): booking an appointment against the store, consuming a service's
 * products from stock, and changing an appointment's status.
 */
module Agenda {
  import opened Wrappers
  import opened Database
  import opened Basics

  /** How the stock consumption ends: normally, or with the error naming the product. */
  datatype Outcome = Ok | InsufficientStock(produto: string)

  /** The consumption list a caller passes, `undefined` read as the empty list. */
  function UsageList(produtosUtilizados: Option<seq<Usage>>): seq<Usage>
  {
    match produtosUtilizados
    case None => []
    case Some(us) => us
  }

  /** The product after taking `q` units from its stock; every other field kept. */
  function Taken(p: Produto, q: int): (r: Produto)
    ensures r.estoque == p.estoque - q
    ensures r.nome == p.nome && r.preco == p.preco && r.descricao == p.descricao
  {
    p.(estoque := p.estoque - q)
  }

  /** The records after one usage is applied without any check; a missing product is skipped. */
  function Deduct(rs: seq<Keyed<Produto>>, u: Usage): seq<Keyed<Produto>>
  {
    match Find(rs, u.produtoId)
    case None => rs
    case Some(p) => Updated(rs, u.produtoId, Taken(p.fields, u.quantidade))
  }

  /** The records after a list of usages is applied in order without any check. */
  function DeductAll(rs: seq<Keyed<Produto>>, us: seq<Usage>): seq<Keyed<Produto>>
    decreases |us|
  {
    if |us| == 0 then rs else DeductAll(Deduct(rs, us[0]), us[1..])
  }

  /** The units a list of usages takes from the product with that id, repeats included. */
  function TotalFor(us: seq<Usage>, id: Id): int
    decreases |us|
  {
    if |us| == 0 then 0
    else (if us[0].produtoId == id then us[0].quantidade else 0) + TotalFor(us[1..], id)
  }

  /** Record `k` is the one `find`/`findIndex` reach for its own id. */
  predicate IsFirst<T>(rs: seq<Keyed<T>>, k: nat)
    requires k < |rs|
  {
    FirstIndex(rs, rs[k].id) == Some(k)
  }

  /** Usage `u` passes the stock check against `rs`: its product is missing (and skipped) or has enough stock. */
  predicate Cabe(rs: seq<Keyed<Produto>>, u: Usage)
  {
    var p := Find(rs, u.produtoId);
    p.None? || p.value.fields.estoque - u.quantidade >= 0
  }

  /** The products and the outcome after `updateEstoqueProdutos`. */
  datatype Consumption = Consumption(records: seq<Keyed<Produto>>, outcome: Outcome)

  /**
   * What `updateEstoqueProdutos` does to the products: walk the usages in order, re-reading
   * the product each time; skip a missing product; stop with the error at the first usage that
   * would leave a negative stock, keeping the deductions already written; otherwise write the
   * new stock back at once and go on.
   */
  function Consume(rs: seq<Keyed<Produto>>, us: seq<Usage>): (c: Consumption)
    ensures |c.records| == |rs|
    ensures forall k :: 0 <= k < |rs| ==> c.records[k].id == rs[k].id
    decreases |us|
  {
    if |us| == 0 then Consumption(rs, Ok)
    else
      var produto := Find(rs, us[0].produtoId);
      if produto.None? then Consume(rs, us[1..])
      else if produto.value.fields.estoque - us[0].quantidade < 0 then
        Consumption(rs, InsufficientStock(produto.value.fields.nome))
      else Consume(Updated(rs, us[0].produtoId, Taken(produto.value.fields, us[0].quantidade)), us[1..])
  }

  /** One step of the consumption, as the loop of `updateEstoqueProdutos` takes it: a missing product is skipped. */
  lemma ConsumeStepMissing(rs: seq<Keyed<Produto>>, us: seq<Usage>)
    requires |us| > 0 && Find(rs, us[0].produtoId).None?
    ensures Consume(rs, us) == Consume(rs, us[1..])
  {
  }

  /** A step that would leave negative stock stops the walk with the error, writing nothing more. */
  lemma ConsumeStepShort(rs: seq<Keyed<Produto>>, us: seq<Usage>, p: Keyed<Produto>)
    requires |us| > 0 && Find(rs, us[0].produtoId) == Some(p)
    requires p.fields.estoque - us[0].quantidade < 0
    ensures Consume(rs, us) == Consumption(rs, InsufficientStock(p.fields.nome))
  {
  }

  /** Otherwise the new stock is written back at once and the walk goes on from there. */
  lemma ConsumeStepTaken(rs: seq<Keyed<Produto>>, us: seq<Usage>, p: Keyed<Produto>)
    requires |us| > 0 && Find(rs, us[0].produtoId) == Some(p)
    requires p.fields.estoque - us[0].quantidade >= 0
    ensures Consume(rs, us) == Consume(Updated(rs, us[0].produtoId, Taken(p.fields, us[0].quantidade)), us[1..])
  {
  }

  /** Applying one usage touches at most the first record with its product id. */
  lemma DeductAt(rs: seq<Keyed<Produto>>, u: Usage, k: nat)
    requires k < |rs|
    ensures |Deduct(rs, u)| == |rs|
    ensures Deduct(rs, u)[k] ==
      if IsFirst(rs, k) && rs[k].id == u.produtoId
      then Keyed(rs[k].id, Taken(rs[k].fields, u.quantidade)) else rs[k]
  {
    FindAtFirstIndex(rs, u.produtoId);
  }

  /** Two record lists with the same ids position by position resolve every id to the same index. */
  lemma {:induction false} SameIdsFirstIndex<T, U>(a: seq<Keyed<T>>, b: seq<Keyed<U>>, id: Id)
    requires |a| == |b|
    requires forall k :: 0 <= k < |a| ==> a[k].id == b[k].id
    ensures FirstIndex(a, id) == FirstIndex(b, id)
  {
    if |a| > 0 && a[0].id != id {
      SameIdsFirstIndex(a[1..], b[1..], id);
    }
  }

  /**
   * Unchecked deductions are cumulative: the first record of each product loses the sum of all
   * quantities listed for it; every other record is untouched.
   */
  lemma {:induction false} DeductAllAt(rs: seq<Keyed<Produto>>, us: seq<Usage>, k: nat)
    requires k < |rs|
    ensures |DeductAll(rs, us)| == |rs|
    ensures DeductAll(rs, us)[k] ==
      if IsFirst(rs, k) then Keyed(rs[k].id, Taken(rs[k].fields, TotalFor(us, rs[k].id))) else rs[k]
    decreases |us|
  {
    if |us| == 0 {
      assert Taken(rs[k].fields, 0) == rs[k].fields;
    } else {
      var u, id := us[0], rs[k].id;
      var mid := Deduct(rs, u);
      DeductKeepsIds(rs, u);
      DeductAt(rs, u, k);
      SameIdsFirstIndex(mid, rs, id);
      assert IsFirst(mid, k) == IsFirst(rs, k);
      DeductAllAt(mid, us[1..], k);
      assert DeductAll(rs, us) == DeductAll(mid, us[1..]);
      if IsFirst(rs, k) {
        var f, q0 := rs[k].fields, if u.produtoId == id then u.quantidade else 0;
        assert mid[k] == Keyed(id, Taken(f, q0));
        assert TotalFor(us, id) == q0 + TotalFor(us[1..], id);
        assert Taken(Taken(f, q0), TotalFor(us[1..], id)) == Taken(f, TotalFor(us, id));
      } else {
        assert mid[k] == rs[k];
      }
    }
  }

  /** Applying one usage keeps every record's id in place. */
  lemma DeductKeepsIds(rs: seq<Keyed<Produto>>, u: Usage)
    ensures |Deduct(rs, u)| == |rs|
    ensures forall j :: 0 <= j < |rs| ==> Deduct(rs, u)[j].id == rs[j].id
  {
    forall j | 0 <= j < |rs|
      ensures Deduct(rs, u)[j].id == rs[j].id
    {
      DeductAt(rs, u, j);
    }
  }

  /**
   * Prefix commit: the consumption leaves exactly the first `n` usages applied. It succeeds iff
   * `n` is all of them; otherwise usage `n` names a product whose stock, after the first `n`
   * deductions, is below the quantity, and the error names that product. Every usage before
   * `n` passed the check, so `n` is the first failing usage.
   */
  lemma {:induction false} ConsumeIsPrefix(rs: seq<Keyed<Produto>>, us: seq<Usage>) returns (n: nat)
    ensures n <= |us|
    ensures Consume(rs, us).records == DeductAll(rs, us[..n])
    ensures forall i :: 0 <= i < n ==> Cabe(DeductAll(rs, us[..i]), us[i])
    ensures Consume(rs, us).outcome.Ok? <==> n == |us|
    ensures Consume(rs, us).outcome.InsufficientStock? ==>
      n < |us| &&
      var p := Find(DeductAll(rs, us[..n]), us[n].produtoId);
      p.Some? && p.value.fields.estoque - us[n].quantidade < 0 &&
      Consume(rs, us).outcome.produto == p.value.fields.nome
    decreases |us|
  {
    if |us| == 0 || (Find(rs, us[0].produtoId).Some? &&
                     Find(rs, us[0].produtoId).value.fields.estoque - us[0].quantidade < 0) {
      n := 0;
      assert us[..0] == [];
    } else {
      ghost var mid := Deduct(rs, us[0]);
      assert Consume(rs, us) == Consume(mid, us[1..]);
      var m := ConsumeIsPrefix(mid, us[1..]);
      PrefixStep(rs, us, m);
      PrefixCabe(rs, us, m);
      n := m + 1;
    }
  }

  /** The usages before the first failing one all passed the check, carried over one usage back. */
  lemma PrefixCabe(rs: seq<Keyed<Produto>>, us: seq<Usage>, m: nat)
    requires |us| > 0 && m <= |us| - 1 && Cabe(rs, us[0])
    requires forall i :: 0 <= i < m ==> Cabe(DeductAll(Deduct(rs, us[0]), us[1..][..i]), us[1..][i])
    ensures forall i :: 0 <= i < m + 1 ==> Cabe(DeductAll(rs, us[..i]), us[i])
  {
    forall i | 0 <= i < m + 1
      ensures Cabe(DeductAll(rs, us[..i]), us[i])
    {
      if i == 0 {
        assert us[..0] == [];
      } else {
        assert us[..i][0] == us[0];
        assert us[..i][1..] == us[1..][..i - 1];
        assert us[1..][i - 1] == us[i];
        assert Cabe(DeductAll(Deduct(rs, us[0]), us[1..][..i - 1]), us[1..][i - 1]);
      }
    }
  }

  /** The prefix property carries over from the rest of the list to the whole once the first usage was applied. */
  lemma PrefixStep(rs: seq<Keyed<Produto>>, us: seq<Usage>, m: nat)
    requires |us| > 0 && m <= |us| - 1
    requires Consume(rs, us) == Consume(Deduct(rs, us[0]), us[1..])
    requires Consume(rs, us).records == DeductAll(Deduct(rs, us[0]), us[1..][..m])
    requires Consume(rs, us).outcome.Ok? <==> m == |us| - 1
    requires Consume(rs, us).outcome.InsufficientStock? ==>
      m < |us| - 1 &&
      var p := Find(DeductAll(Deduct(rs, us[0]), us[1..][..m]), us[1..][m].produtoId);
      p.Some? && p.value.fields.estoque - us[1..][m].quantidade < 0 &&
      Consume(rs, us).outcome.produto == p.value.fields.nome
    ensures Consume(rs, us).records == DeductAll(rs, us[..m + 1])
    ensures Consume(rs, us).outcome.InsufficientStock? ==>
      m + 1 < |us| &&
      var p := Find(DeductAll(rs, us[..m + 1]), us[m + 1].produtoId);
      p.Some? && p.value.fields.estoque - us[m + 1].quantidade < 0 &&
      Consume(rs, us).outcome.produto == p.value.fields.nome
  {
    assert us[..m + 1][1..] == us[1..][..m];
    assert DeductAll(rs, us[..m + 1]) == DeductAll(Deduct(rs, us[0]), us[1..][..m]);
    if m + 1 < |us| {
      assert us[1..][m] == us[m + 1];
    }
  }

  /**
   * When the consumption succeeds, the first record of every product has lost exactly the
   * total quantity listed for it (repeats deduct cumulatively); nothing else changes.
   */
  lemma ConsumeOk(rs: seq<Keyed<Produto>>, us: seq<Usage>)
    requires Consume(rs, us).outcome.Ok?
    ensures |Consume(rs, us).records| == |rs|
    ensures forall k :: 0 <= k < |rs| ==>
      Consume(rs, us).records[k] ==
        if IsFirst(rs, k) then Keyed(rs[k].id, Taken(rs[k].fields, TotalFor(us, rs[k].id))) else rs[k]
  {
    var n := ConsumeIsPrefix(rs, us);
    assert us[..n] == us;
    forall k | 0 <= k < |rs|
      ensures |DeductAll(rs, us)| == |rs|
      ensures DeductAll(rs, us)[k] ==
        if IsFirst(rs, k) then Keyed(rs[k].id, Taken(rs[k].fields, TotalFor(us, rs[k].id))) else rs[k]
    {
      DeductAllAt(rs, us, k);
    }
    if |rs| == 0 {
      DeductAllLength(rs, us);
    }
  }

  /** Unchecked deductions never change the number of records. */
  lemma {:induction false} DeductAllLength(rs: seq<Keyed<Produto>>, us: seq<Usage>)
    ensures |DeductAll(rs, us)| == |rs|
    decreases |us|
  {
    if |us| > 0 {
      DeductAllLength(Deduct(rs, us[0]), us[1..]);
    }
  }

  /** The consumption never writes a negative stock: every record it changed has stock >= 0. */
  lemma {:induction false} ConsumeNeverWritesNegative(rs: seq<Keyed<Produto>>, us: seq<Usage>)
    ensures |Consume(rs, us).records| == |rs|
    ensures forall k :: 0 <= k < |rs| ==>
      Consume(rs, us).records[k] == rs[k] || Consume(rs, us).records[k].fields.estoque >= 0
    decreases |us|
  {
    if |us| > 0 {
      match Find(rs, us[0].produtoId)
      case None =>
        ConsumeNeverWritesNegative(rs, us[1..]);
      case Some(p) =>
        var novoEstoque := p.fields.estoque - us[0].quantidade;
        if novoEstoque >= 0 {
          var mid := Updated(rs, us[0].produtoId, Taken(p.fields, us[0].quantidade));
          ConsumeNeverWritesNegative(mid, us[1..]);
          var after := Consume(mid, us[1..]).records;
          assert Consume(rs, us).records == after;
          forall k | 0 <= k < |rs|
            ensures after[k] == rs[k] || after[k].fields.estoque >= 0
          {
            assert mid[k] == rs[k] || mid[k].fields.estoque == novoEstoque;
          }
        }
    }
  }

  /** Stock that was never negative stays never negative, whether the consumption fails or not. */
  lemma StockStaysNonNegative(rs: seq<Keyed<Produto>>, us: seq<Usage>)
    requires forall k :: 0 <= k < |rs| ==> rs[k].fields.estoque >= 0
    ensures forall k :: 0 <= k < |Consume(rs, us).records| ==> Consume(rs, us).records[k].fields.estoque >= 0
  {
    ConsumeNeverWritesNegative(rs, us);
  }

  /** A usage whose product is missing is skipped, not treated as an error. */
  lemma ConsumeSkipsMissing(rs: seq<Keyed<Produto>>, u: Usage, us: seq<Usage>)
    requires forall j :: 0 <= j < |rs| ==> rs[j].id != u.produtoId
    ensures Consume(rs, [u] + us) == Consume(rs, us)
  {
    assert ([u] + us)[1..] == us;
  }

  /**
   * `updateEstoqueProdutos`: for each usage, read the product, compute the new stock, throw
   * if it is negative, else write the product back with that stock.
   */
  method UpdateEstoqueProdutos(produtos: Collection<Produto>, produtosUtilizados: Option<seq<Usage>>)
    returns (outcome: Outcome)
    modifies produtos
    ensures produtos.records == Consume(old(produtos.records), UsageList(produtosUtilizados)).records
    ensures outcome == Consume(old(produtos.records), UsageList(produtosUtilizados)).outcome
  {
    if produtosUtilizados.None? || |produtosUtilizados.value| == 0 {
      return Ok;
    }
    var items := produtosUtilizados.value;
    var i := 0;
    while i < |items|
      invariant 0 <= i <= |items|
      invariant Consume(old(produtos.records), items) == Consume(produtos.records, items[i..])
    {
      var item := items[i];
      var rest := items[i..];
      assert rest[0] == item && rest[1..] == items[i + 1..];
      var produto := produtos.Get(item.produtoId);
      if produto.None? {
        ConsumeStepMissing(produtos.records, rest);
      } else {
        var novoEstoque := produto.value.fields.estoque - item.quantidade;
        if novoEstoque < 0 {
          ConsumeStepShort(produtos.records, rest, produto.value);
          return InsufficientStock(produto.value.fields.nome);
        }
        ConsumeStepTaken(produtos.records, rest, produto.value);
        produtos.Update(item.produtoId, Taken(produto.value.fields, item.quantidade));
      }
      i := i + 1;
    }
    outcome := Ok;
  }

  /** The result of a status change as the user sees it. */
  datatype StatusResult = StatusChanged | AgendamentoNaoEncontrado | EstoqueInsuficiente(produto: string)

  /** The usages a status change consumes: the snapshot's list, and only when moving to `realizado`. */
  function UsagesFor(a: Agendamento, novoStatus: string): (us: seq<Usage>)
    ensures novoStatus != "realizado" ==> us == []
    ensures a.servicoInfo.None? ==> us == []
    ensures novoStatus == "realizado" && a.servicoInfo.Some? ==> us == UsageList(a.servicoInfo.value.fields.produtosUtilizados)
  {
    if novoStatus == "realizado" && a.servicoInfo.Some? && a.servicoInfo.value.fields.produtosUtilizados.Some?
    then a.servicoInfo.value.fields.produtosUtilizados.value
    else []
  }

  /**
   * `updateAgendamentoStatus`: an unknown id changes nothing; moving to `realizado` first
   * consumes the snapshot's products, and if that throws the appointment keeps its status;
   * otherwise only the status of the appointment changes.
   */
  method UpdateAgendamentoStatus(db: Store, agendamentoId: Id, novoStatus: string) returns (r: StatusResult)
    modifies db.produtos, db.agendamentos
    ensures Find(old(db.agendamentos.records), agendamentoId).None? ==>
      r == AgendamentoNaoEncontrado &&
      db.agendamentos.records == old(db.agendamentos.records) &&
      db.produtos.records == old(db.produtos.records)
    ensures Find(old(db.agendamentos.records), agendamentoId).Some? ==>
      var a := Find(old(db.agendamentos.records), agendamentoId).value;
      var c := Consume(old(db.produtos.records), UsagesFor(a.fields, novoStatus));
      db.produtos.records == c.records &&
      (c.outcome.Ok? ==>
        r == StatusChanged &&
        db.agendamentos.records == Updated(old(db.agendamentos.records), agendamentoId, a.fields.(status := novoStatus))) &&
      (c.outcome.InsufficientStock? ==>
        r == EstoqueInsuficiente(c.outcome.produto) &&
        db.agendamentos.records == old(db.agendamentos.records))
  {
    var agendamento := db.agendamentos.Get(agendamentoId);
    if agendamento.None? {
      return AgendamentoNaoEncontrado;
    }
    var a := agendamento.value;
    if novoStatus == "realizado" && a.fields.servicoInfo.Some? && a.fields.servicoInfo.value.fields.produtosUtilizados.Some? {
      var outcome := UpdateEstoqueProdutos(db.produtos, a.fields.servicoInfo.value.fields.produtosUtilizados);
      if outcome.InsufficientStock? {
        return EstoqueInsuficiente(outcome.produto);
      }
    }
    db.agendamentos.Update(agendamentoId, a.fields.(status := novoStatus));
    r := StatusChanged;
  }

  /** After a successful status change the appointment reads back with only its status changed. */
  lemma StatusChangeKeepsFields(ags: seq<Keyed<Agendamento>>, agendamentoId: Id, novoStatus: string)
    requires Find(ags, agendamentoId).Some?
    ensures var a := Find(ags, agendamentoId).value;
      var b := Find(Updated(ags, agendamentoId, a.fields.(status := novoStatus)), agendamentoId);
      b.Some? && b.value.fields.status == novoStatus &&
      b.value.fields.(status := a.fields.status) == a.fields
  {
    var a := Find(ags, agendamentoId).value;
    UpdatedThenFind(ags, agendamentoId, a.fields.(status := novoStatus));
  }

  /** Why a booking is refused. */
  datatype BookingError = ClienteOuServicoNaoEncontrado

  /** `servico.duracao || 60`: an absent or zero duration falls back to one hour. */
  function Duracao(s: Servico): (m: int)
    ensures s.duracao.None? ==> m == 60
    ensures s.duracao.Some? ==> m == if s.duracao.value == 0 then 60 else s.duracao.value
    ensures m != 0
  {
    match s.duracao
    case None => 60
    case Some(d) => if d == 0 then 60 else d
  }

  /**
   * The appointment `handleNovoAgendamento` builds: refused unless both the client and the
   * service are found; it ends one service duration after it starts, is `confirmado`, and
   * carries the whole service record as its snapshot.
   */
  function NovoAgendamento(
    clientes: seq<Keyed<Cliente>>, servicos: seq<Keyed<Servico>>,
    clienteId: Id, servicoId: Id, start: int, observacoes: string, now: int)
    : (r: Result<Agendamento, BookingError>)
    ensures r.Failure? <==> Find(clientes, clienteId).None? || Find(servicos, servicoId).None?
    ensures r.Success? ==>
      var c := Find(clientes, clienteId).value;
      var s := Find(servicos, servicoId).value;
      && r.value.start == start
      && r.value.end - r.value.start == Duracao(s.fields) * MinuteMs
      && r.value.status == "confirmado"
      && r.value.servicoInfo == Some(s) && s.id == servicoId
      && r.value.clienteId == clienteId && r.value.cliente == c.fields.nome
      && r.value.servicoId == servicoId && r.value.servico == s.fields.nome
      && r.value.observacoes == observacoes && r.value.dataCriacao == now
  {
    match (Find(clientes, clienteId), Find(servicos, servicoId))
    case (Some(c), Some(s)) =>
      Success(Agendamento(
        clienteId, c.fields.nome, servicoId, s.fields.nome,
        start, start + Duracao(s.fields) * MinuteMs,
        observacoes, "confirmado", Some(s), now))
    case _ => Failure(ClienteOuServicoNaoEncontrado)
  }

  /**
   * A booked appointment's end time always agrees with its own snapshot's duration, and a
   * later `realizado` consumes exactly the snapshot's list, whatever the service looks like by then.
   */
  lemma BookingUsesSnapshot(
    clientes: seq<Keyed<Cliente>>, servicos: seq<Keyed<Servico>>,
    clienteId: Id, servicoId: Id, start: int, observacoes: string, now: int)
    requires NovoAgendamento(clientes, servicos, clienteId, servicoId, start, observacoes, now).Success?
    ensures var a := NovoAgendamento(clientes, servicos, clienteId, servicoId, start, observacoes, now).value;
      && a.end == a.start + Duracao(a.servicoInfo.value.fields) * MinuteMs
      && UsagesFor(a, "realizado") == UsageList(Find(servicos, servicoId).value.fields.produtosUtilizados)
  {
  }

  /** `handleNovoAgendamento`: look up client and service, build the appointment, append it. */
  method HandleNovoAgendamento(
    db: Store, clienteId: Id, servicoId: Id, start: int, observacoes: string, now: int, novoId: Id)
    returns (r: Result<Keyed<Agendamento>, BookingError>)
    modifies db.agendamentos
    ensures var n := NovoAgendamento(old(db.clientes.records), old(db.servicos.records), clienteId, servicoId, start, observacoes, now);
      && (n.Failure? ==> r == Failure(n.error) && db.agendamentos.records == old(db.agendamentos.records))
      && (n.Success? ==> r == Success(Keyed(novoId, n.value)) && db.agendamentos.records == old(db.agendamentos.records) + [r.value])
  {
    var novo := NovoAgendamento(db.clientes.records, db.servicos.records, clienteId, servicoId, start, observacoes, now);
    if novo.Failure? {
      return Failure(novo.error);
    }
    var added := db.agendamentos.Add(novoId, novo.value);
    r := Success(added);
  }
}
