/**
 * The IndexedDB side of app.js: three object stores keyed by `id` (clients, appointments,
 * financial records), and the session lifecycle on top of them, 'agendado' -> 'em-andamento'
 * -> 'finalizado'. Starting a session fixes its end one hour after the start; each timer
 * tick either shows the time left or, once none is left, finishes the session, which books
 * the session's price as one revenue record. The browser's promise-based store is modelled
 * by its logical effect on a map per store; clocks and record ids are parameters.
 */
module Sessions {
  import opened Wrappers
  import opened Schedule
  import opened Finance
  import Intake
  import opened Basics

  /** An object store with key path `id`: `add` refuses a taken key, `put` overwrites. */
  class ObjectStore<V> {
    var entries: map<int, V>

    constructor()
      ensures entries == map[]
    {
      entries := map[];
    }

    method Add(key: int, value: V) returns (ok: bool)
      modifies this
      ensures ok <==> key !in old(entries)
      ensures entries == if ok then old(entries)[key := value] else old(entries)
    {
      ok := key !in entries;
      if ok {
        entries := entries[key := value];
      }
    }

    method Get(key: int) returns (r: Option<V>)
      ensures r.Some? <==> key in entries
      ensures r.Some? ==> r.value == entries[key]
    {
      if key in entries {
        r := Some(entries[key]);
      } else {
        r := None;
      }
    }

    method Put(key: int, value: V)
      modifies this
      ensures entries == old(entries)[key := value]
    {
      entries := entries[key := value];
    }
  }

  // ---------------------------------------------------------------- the lifecycle on values

  /** `iniciarSessao`'s change to the record: running from `agora` for one hour. */
  function Iniciada(a: Agendamento, agora: int): (r: Agendamento)
    ensures r.status == EmAndamento && r.inicio == Some(agora) && r.fim == Some(agora + HourMs)
    ensures r.id == a.id && r.clienteId == a.clienteId && r.data == a.data && r.horario == a.horario
    ensures r.tipo == a.tipo && r.valor == a.valor
  {
    a.(status := EmAndamento, inicio := Some(agora), fim := Some(agora + HourMs))
  }

  /** `finalizarSessao`'s change to the record: only the status moves. */
  function Encerrada(a: Agendamento): (r: Agendamento)
    ensures r.status == Finalizado
    ensures r.id == a.id && r.clienteId == a.clienteId && r.data == a.data && r.horario == a.horario
    ensures r.tipo == a.tipo && r.valor == a.valor && r.inicio == a.inicio && r.fim == a.fim
  {
    a.(status := Finalizado)
  }

  /** Starting the session `id`: that record becomes running, an unknown id changes nothing. */
  function Iniciar(ags: map<int, Agendamento>, id: int, agora: int): (r: map<int, Agendamento>)
    ensures r.Keys == ags.Keys
    ensures forall k :: k in r ==> r[k] == if k == id then Iniciada(ags[k], agora) else ags[k]
  {
    if id in ags then ags[id := Iniciada(ags[id], agora)] else ags
  }

  /** How `finalizarSessao` ends: done, or stopped before writing anything. */
  datatype Fim = Finalizada | NaoEncontrado | ClienteNaoEncontrado | RegistroDuplicado

  /** The automatic payment entry of a finished session. */
  function ReceitaDaSessao(a: Agendamento, nomeCliente: string, registroId: int): (r: RegistroFinanceiro)
    ensures r.id == registroId && r.data == a.data && r.tipo == ReceitaTipo && r.valor == a.valor
    ensures r.formaPagamento == "Dinheiro" && r.plataforma == "Total Bronze"
    ensures r.descricao == "Sessão de Bronzeamento " + a.tipo + " - Cliente: " + nomeCliente
  {
    RegistroFinanceiro(registroId, a.data, ReceitaTipo,
      "Sessão de Bronzeamento " + a.tipo + " - Cliente: " + nomeCliente, a.valor, "Dinheiro", "Total Bronze")
  }

  datatype Efeito = Efeito(agendamentos: map<int, Agendamento>, registros: map<int, RegistroFinanceiro>, resultado: Fim)

  /**
   * Finishing the session `id`. Reading the client's name fails for a missing client, and
   * saving the payment fails for a taken record id; either failure happens before the
   * appointment is written, so then nothing changes. On success exactly one revenue record
   * is added and only the appointment's status moves. The current status is not consulted.
   */
  function Finalizar(clientes: map<int, Intake.Cliente>, ags: map<int, Agendamento>,
                     regs: map<int, RegistroFinanceiro>, id: int, registroId: int): (e: Efeito)
    ensures e.resultado == NaoEncontrado <==> id !in ags
    ensures e.resultado == ClienteNaoEncontrado <==> id in ags && ags[id].clienteId !in clientes
    ensures e.resultado == RegistroDuplicado <==> id in ags && ags[id].clienteId in clientes && registroId in regs
    ensures e.resultado == Finalizada ==>
      e.agendamentos == ags[id := Encerrada(ags[id])]
      && e.registros == regs[registroId := ReceitaDaSessao(ags[id], clientes[ags[id].clienteId].nome, registroId)]
      && |e.registros| == |regs| + 1
    ensures e.resultado != Finalizada ==> e.agendamentos == ags && e.registros == regs
  {
    if id !in ags then Efeito(ags, regs, NaoEncontrado)
    else if ags[id].clienteId !in clientes then Efeito(ags, regs, ClienteNaoEncontrado)
    else if registroId in regs then Efeito(ags, regs, RegistroDuplicado)
    else
      var a := ags[id];
      Efeito(ags[id := Encerrada(a)],
        regs[registroId := ReceitaDaSessao(a, clientes[a.clienteId].nome, registroId)], Finalizada)
  }

  // ---------------------------------------------------------------- the countdown

  /** What one tick of the timer does: finish the session, or show minutes and seconds left. */
  datatype Visor = Encerrar | Mostrar(minutos: int, segundos: int)

  /** `fim - agora`, where a missing end counts as 0. */
  function Restante(fim: Option<int>, agora: int): (t: int)
    ensures fim.Some? ==> agora + t == fim.value
    ensures fim.None? ==> agora + t == 0
  {
    match fim
    case None => 0 - agora
    case Some(f) => f - agora
  }

  /** The tick's decision for `t` milliseconds left. */
  function Contagem(t: int): (v: Visor)
    ensures v.Encerrar? <==> t <= 0
    ensures v.Mostrar? ==> 0 <= v.minutos && 0 <= v.segundos < 60
    ensures v.Mostrar? ==>
      v.minutos * MinuteMs + v.segundos * SecondMs <= t < v.minutos * MinuteMs + v.segundos * SecondMs + SecondMs
  {
    if t <= 0 then Encerrar else Mostrar(t / MinuteMs, (t % MinuteMs) / SecondMs)
  }

  /**
   * A session started at `inicio` runs for exactly one hour whatever the service: a tick
   * finishes it exactly from `inicio + 1h` on, and before that the display never passes
   * 60 minutes, reaching 60 only at the very start.
   */
  lemma SessaoDuraUmaHora(a: Agendamento, inicio: int, agora: int)
    ensures Contagem(Restante(Iniciada(a, inicio).fim, agora)).Encerrar? <==> agora >= inicio + HourMs
    ensures inicio <= agora < inicio + HourMs ==>
      Contagem(Restante(Iniciada(a, inicio).fim, agora)).minutos <= 60
      && (Contagem(Restante(Iniciada(a, inicio).fim, agora)).minutos == 60 <==> agora == inicio)
  {
    var t := Restante(Iniciada(a, inicio).fim, agora);
    assert t == inicio + HourMs - agora;
    if inicio <= agora < inicio + HourMs {
      assert 0 < t <= HourMs;
      assert t / MinuteMs <= 60;
      assert t / MinuteMs == 60 <==> t == HourMs;
    }
  }

  /**
   * The whole lifecycle of a booked session: starting it puts it in progress, and finishing
   * it afterwards marks it finished, keeps its one-hour window and books its price once.
   */
  lemma CicloDaSessao(clientes: map<int, Intake.Cliente>, ags: map<int, Agendamento>,
                      regs: map<int, RegistroFinanceiro>, id: int, inicio: int, registroId: int)
    requires id in ags && ags[id].clienteId in clientes && registroId !in regs
    ensures Iniciar(ags, id, inicio)[id].status == EmAndamento
    ensures Finalizar(clientes, Iniciar(ags, id, inicio), regs, id, registroId).resultado == Finalizada
    ensures Finalizar(clientes, Iniciar(ags, id, inicio), regs, id, registroId).agendamentos[id]
      == ags[id].(status := Finalizado, inicio := Some(inicio), fim := Some(inicio + HourMs))
    ensures Finalizar(clientes, Iniciar(ags, id, inicio), regs, id, registroId).registros[registroId].valor == ags[id].valor
    ensures Finalizar(clientes, Iniciar(ags, id, inicio), regs, id, registroId).registros[registroId].tipo == ReceitaTipo
  {
  }

  /**
   * The finance panel after a session is finished: revenue rises by the session's price and
   * expenses stay, over the store's listing with the new record's key appended (and so, by
   * `TotalIndependeDaOrdem`, over any listing of it).
   */
  lemma ReceitaAoFinalizar(clientes: map<int, Intake.Cliente>, ags: map<int, Agendamento>,
                           regs: map<int, RegistroFinanceiro>, ks: seq<int>, id: int, registroId: int)
    requires ListaChaves(regs, ks)
    ensures Finalizar(clientes, ags, regs, id, registroId).resultado == Finalizada ==>
      ListaChaves(Finalizar(clientes, ags, regs, id, registroId).registros, ks + [registroId])
      && Receita(Listagem(Finalizar(clientes, ags, regs, id, registroId).registros, ks + [registroId]))
         == Receita(Listagem(regs, ks)) + ags[id].valor
      && Despesas(Listagem(Finalizar(clientes, ags, regs, id, registroId).registros, ks + [registroId]))
         == Despesas(Listagem(regs, ks))
    ensures Finalizar(clientes, ags, regs, id, registroId).resultado != Finalizada ==>
      Finalizar(clientes, ags, regs, id, registroId).registros == regs
  {
    var e := Finalizar(clientes, ags, regs, id, registroId);
    if e.resultado == Finalizada {
      var r := ReceitaDaSessao(ags[id], clientes[ags[id].clienteId].nome, registroId);
      TotalAoArmazenar(regs, ks, registroId, r, ReceitaTipo);
      TotalAoArmazenar(regs, ks, registroId, r, DespesaTipo);
    }
  }

  /**
   * Since the status is not consulted, finishing the same session twice (two timers on it)
   * books its price twice, under the two record ids.
   */
  lemma FinalizarDuasVezes(clientes: map<int, Intake.Cliente>, ags: map<int, Agendamento>,
                           regs: map<int, RegistroFinanceiro>, id: int, r1: int, r2: int)
    requires id in ags && ags[id].clienteId in clientes
    requires r1 !in regs && r2 !in regs && r1 != r2
    ensures Finalizar(clientes, Finalizar(clientes, ags, regs, id, r1).agendamentos,
                      Finalizar(clientes, ags, regs, id, r1).registros, id, r2).resultado == Finalizada
    ensures |Finalizar(clientes, Finalizar(clientes, ags, regs, id, r1).agendamentos,
                       Finalizar(clientes, ags, regs, id, r1).registros, id, r2).registros| == |regs| + 2
  {
  }

  // ---------------------------------------------------------------- the stores

  /** The app's database: one object store per record kind, with the `cpf` index unique. */
  class Salao {
    const clientes: ObjectStore<Intake.Cliente>
    const agendamentos: ObjectStore<Agendamento>
    const registros: ObjectStore<RegistroFinanceiro>

    /** Every record sits under its own `id`, and no two clients share a CPF. */
    predicate Valid()
      reads clientes, agendamentos, registros
    {
      (forall k :: k in clientes.entries ==> clientes.entries[k].id == k)
      && (forall k1, k2 :: k1 in clientes.entries && k2 in clientes.entries && k1 != k2 ==>
            clientes.entries[k1].cpf != clientes.entries[k2].cpf)
      && (forall k :: k in agendamentos.entries ==> agendamentos.entries[k].id == k)
      && (forall k :: k in registros.entries ==> registros.entries[k].id == k)
    }

    constructor()
      ensures Valid()
      ensures clientes.entries == map[] && agendamentos.entries == map[] && registros.entries == map[]
    {
      clientes := new ObjectStore();
      agendamentos := new ObjectStore();
      registros := new ObjectStore();
    }

    /** `Cliente.save`: refused when the id is taken or another client has the same CPF. */
    method SalvarCliente(c: Intake.Cliente) returns (ok: bool)
      requires Valid()
      modifies clientes
      ensures Valid()
      ensures ok <==> (c.id !in old(clientes.entries)
        && forall k :: k in old(clientes.entries) ==> old(clientes.entries)[k].cpf != c.cpf)
      ensures clientes.entries == if ok then old(clientes.entries)[c.id := c] else old(clientes.entries)
    {
      var cpfLivre := forall k :: k in clientes.entries ==> clientes.entries[k].cpf != c.cpf;
      if !cpfLivre {
        ok := false;
        return;
      }
      ok := clientes.Add(c.id, c);
    }

    /** `Agendamento.save`: refused only when the id is taken; double bookings are not checked. */
    method SalvarAgendamento(a: Agendamento) returns (ok: bool)
      requires Valid()
      modifies agendamentos
      ensures Valid()
      ensures ok <==> a.id !in old(agendamentos.entries)
      ensures agendamentos.entries == if ok then old(agendamentos.entries)[a.id := a] else old(agendamentos.entries)
    {
      ok := agendamentos.Add(a.id, a);
    }

    /** `RegistroFinanceiro.save`, as the finance form uses it. */
    method SalvarRegistro(r: RegistroFinanceiro) returns (ok: bool)
      requires Valid()
      modifies registros
      ensures Valid()
      ensures ok <==> r.id !in old(registros.entries)
      ensures registros.entries == if ok then old(registros.entries)[r.id := r] else old(registros.entries)
    {
      ok := registros.Add(r.id, r);
    }

    /** `iniciarSessao`: an existing appointment starts now and ends one hour later. */
    method IniciarSessao(id: int, agora: int) returns (encontrado: bool)
      requires Valid()
      modifies agendamentos
      ensures Valid()
      ensures encontrado <==> id in old(agendamentos.entries)
      ensures agendamentos.entries == Iniciar(old(agendamentos.entries), id, agora)
    {
      var a := agendamentos.Get(id);
      encontrado := a.Some?;
      if encontrado {
        var novo := Iniciada(a.value, agora);
        agendamentos.Put(novo.id, novo);
      }
    }

    /** `finalizarSessao`: book the payment, then store the finished appointment. */
    method FinalizarSessao(id: int, registroId: int) returns (r: Fim)
      requires Valid()
      modifies agendamentos, registros
      ensures Valid()
      ensures var e := Finalizar(old(clientes.entries), old(agendamentos.entries), old(registros.entries), id, registroId);
        r == e.resultado && agendamentos.entries == e.agendamentos && registros.entries == e.registros
    {
      var a := agendamentos.Get(id);
      if a.None? {
        return NaoEncontrado;
      }
      var c := clientes.Get(a.value.clienteId);
      if c.None? {
        return ClienteNaoEncontrado;
      }
      var registro := ReceitaDaSessao(a.value, c.value.nome, registroId);
      var ok := registros.Add(registroId, registro);
      if !ok {
        return RegistroDuplicado;
      }
      agendamentos.Put(id, Encerrada(a.value));
      r := Finalizada;
    }

    /**
     * One tick of the timer of session `id`: re-read the appointment and either finish it
     * or report the time left. A missing appointment makes the tick fail without effect.
     */
    method Tick(id: int, agora: int, registroId: int) returns (p: Passo)
      requires Valid()
      modifies agendamentos, registros
      ensures Valid()
      ensures id !in old(agendamentos.entries) ==>
        p == SemAgendamento && agendamentos.entries == old(agendamentos.entries)
        && registros.entries == old(registros.entries)
      ensures id in old(agendamentos.entries) && Contagem(Restante(old(agendamentos.entries)[id].fim, agora)).Mostrar? ==>
        p == Exibe(Contagem(Restante(old(agendamentos.entries)[id].fim, agora)).minutos,
                   Contagem(Restante(old(agendamentos.entries)[id].fim, agora)).segundos)
        && agendamentos.entries == old(agendamentos.entries) && registros.entries == old(registros.entries)
      ensures id in old(agendamentos.entries) && Contagem(Restante(old(agendamentos.entries)[id].fim, agora)).Encerrar? ==>
        var e := Finalizar(old(clientes.entries), old(agendamentos.entries), old(registros.entries), id, registroId);
        p == Encerrou(e.resultado) && agendamentos.entries == e.agendamentos && registros.entries == e.registros
    {
      var a := agendamentos.Get(id);
      if a.None? {
        return SemAgendamento;
      }
      var v := Contagem(Restante(a.value.fim, agora));
      if v.Encerrar? {
        var fim := FinalizarSessao(id, registroId);
        p := Encerrou(fim);
      } else {
        p := Exibe(v.minutos, v.segundos);
      }
    }
  }

  /** What a tick reports. */
  datatype Passo = SemAgendamento | Exibe(minutos: int, segundos: int) | Encerrou(fim: Fim)
}
