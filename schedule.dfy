/**
 * The appointment record of the IndexedDB layer in app.js and the day view built from it:
 * zero-padded "HH:MM" slot labels, the 30-minute grid from 08:00 to 19:30, the "strictly in
 * the future" rule shared by the grid and the slot selection, and the list of dates that
 * have appointments. Times are integer milliseconds; `diaMs` is the instant at which the
 * viewed day starts, so a slot's instant is that plus its minutes since midnight.
 */
module Schedule {
  import opened Wrappers
  import opened Seqs
  import opened Basics

  /** The three values of `status`: 'agendado', 'em-andamento', 'finalizado'. */
  datatype Status = Agendado | EmAndamento | Finalizado

  datatype Agendamento = Agendamento(
    id: int,
    clienteId: int,
    data: string,
    horario: string,
    tipo: string,
    valor: int,
    status: Status,
    inicio: Option<int>,
    fim: Option<int>)

  /** The `Agendamento` constructor: a booked session not yet started. */
  function NovoAgendamento(id: int, clienteId: int, data: string, horario: string, tipo: string, valor: int): (a: Agendamento)
    ensures a.id == id && a.clienteId == clienteId && a.data == data && a.horario == horario
    ensures a.tipo == tipo && a.valor == valor
    ensures a.status == Agendado && a.inicio.None? && a.fim.None?
  {
    Agendamento(id, clienteId, data, horario, tipo, valor, Agendado, None, None)
  }

  // ---------------------------------------------------------------- "HH:MM" labels

  function Digito(d: nat): (c: char)
    requires d < 10
    ensures IsDigit(c) && c as int - '0' as int == d
  {
    ('0' as int + d) as char
  }

  /** `n.toString().padStart(2, '0')` for `n < 100`. */
  function Pad2(n: nat): (s: string)
    requires n < 100
    ensures |s| == 2 && IsDigit(s[0]) && IsDigit(s[1])
  {
    [Digito(n / 10), Digito(n % 10)]
  }

  /** The slot label built from `hora` and `minutos`. */
  function Horario(hora: nat, minutos: nat): (s: string)
    requires hora < 100 && minutos < 100
    ensures |s| == 5 && s[2] == ':'
  {
    Pad2(hora) + ":" + Pad2(minutos)
  }

  /** Minutes since midnight of a well-formed "HH:MM" label, or nothing for any other text. */
  function LerHorario(s: string): (r: Option<nat>)
    ensures r.Some? ==> r.value < 24 * 60
  {
    if |s| == 5 && s[2] == ':' && IsDigit(s[0]) && IsDigit(s[1]) && IsDigit(s[3]) && IsDigit(s[4]) then
      var h := 10 * (s[0] as int - '0' as int) + (s[1] as int - '0' as int);
      var m := 10 * (s[3] as int - '0' as int) + (s[4] as int - '0' as int);
      if h < 24 && m < 60 then Some(h * 60 + m) else None
    else None
  }

  /** Reading a label gives back the time it was built from. */
  lemma LerHorarioDeHorario(hora: nat, minutos: nat)
    requires hora < 24 && minutos < 60
    ensures LerHorario(Horario(hora, minutos)) == Some(hora * 60 + minutos)
  {
    var s := Horario(hora, minutos);
    assert s[0] == Digito(hora / 10) && s[1] == Digito(hora % 10);
    assert s[3] == Digito(minutos / 10) && s[4] == Digito(minutos % 10);
  }

  /** And the only text that reads as a time is that time's label. */
  lemma HorarioDeLerHorario(s: string)
    requires LerHorario(s).Some?
    ensures LerHorario(s).value % 60 < 60
    ensures s == Horario(LerHorario(s).value / 60, LerHorario(s).value % 60)
  {
    var t := LerHorario(s).value;
    var h := 10 * (s[0] as int - '0' as int) + (s[1] as int - '0' as int);
    var m := 10 * (s[3] as int - '0' as int) + (s[4] as int - '0' as int);
    assert t == h * 60 + m;
    assert t / 60 == h && t % 60 == m;
    var r := Horario(h, m);
    assert r[0] == s[0] && r[1] == s[1] && r[2] == s[2] && r[3] == s[3] && r[4] == s[4];
  }

  /** `s < t` on strings: the first differing character decides, a proper prefix comes first. */
  predicate Antes(s: string, t: string)
    decreases |s|
  {
    if |s| == 0 then |t| > 0
    else |t| > 0 && (s[0] < t[0] || (s[0] == t[0] && Antes(s[1..], t[1..])))
  }

  /** Comparing two strings that start with equally long parts compares those parts first. */
  lemma {:induction false} AntesConcat(p: string, q: string, s: string, t: string)
    requires |p| == |q|
    ensures Antes(p + s, q + t) <==> Antes(p, q) || (p == q && Antes(s, t))
  {
    if |p| == 0 {
      assert p + s == s && q + t == t && p == q;
    } else {
      assert (p + s)[0] == p[0] && (p + s)[1..] == p[1..] + s;
      assert (q + t)[0] == q[0] && (q + t)[1..] == q[1..] + t;
      assert p == [p[0]] + p[1..] && q == [q[0]] + q[1..];
      AntesConcat(p[1..], q[1..], s, t);
    }
  }

  lemma Pad2Ordem(x: nat, y: nat)
    requires x < 100 && y < 100
    ensures Antes(Pad2(x), Pad2(y)) <==> x < y
    ensures Pad2(x) == Pad2(y) <==> x == y
  {
    var p, q := Pad2(x), Pad2(y);
    assert p[1..][1..] == [] && q[1..][1..] == [];
    assert Antes(p[1..], q[1..]) <==> p[1] < q[1] by {
      assert p[1..][0] == p[1] && q[1..][0] == q[1];
      assert !Antes(p[1..][1..], q[1..][1..]);
    }
    assert Antes(p, q) <==> p[0] < q[0] || (p[0] == q[0] && p[1] < q[1]);
    assert p[0] < q[0] <==> x / 10 < y / 10;
    assert p[0] == q[0] <==> x / 10 == y / 10;
    assert p[1] < q[1] <==> x % 10 < y % 10;
    assert x < y <==> x / 10 < y / 10 || (x / 10 == y / 10 && x % 10 < y % 10);
    if p == q {
      assert p[0] == q[0] && p[1] == q[1];
    }
  }

  /**
   * Labels sort as the times they name: the label order of the string comparison is the
   * order of (hour, minute).
   */
  lemma HorarioOrdem(h1: nat, m1: nat, h2: nat, m2: nat)
    requires h1 < 100 && m1 < 100 && h2 < 100 && m2 < 100
    ensures Antes(Horario(h1, m1), Horario(h2, m2)) <==> h1 < h2 || (h1 == h2 && m1 < m2)
  {
    assert Horario(h1, m1) == Pad2(h1) + (":" + Pad2(m1));
    assert Horario(h2, m2) == Pad2(h2) + (":" + Pad2(m2));
    AntesConcat(Pad2(h1), Pad2(h2), ":" + Pad2(m1), ":" + Pad2(m2));
    AntesConcat(":", ":", Pad2(m1), Pad2(m2));
    assert !Antes(":", ":");
    Pad2Ordem(h1, h2);
    Pad2Ordem(m1, m2);
  }

  // ---------------------------------------------------------------- the day grid

  const PrimeiraHora := 8
  const UltimaHora := 20
  const PassoMinutos := 30
  const SlotsPorDia := 24

  /**
   * One cell of the day view: taken by an appointment (shown with its client and a start
   * button), free to book, or in the past and shown as unavailable.
   */
  datatype Slot = Ocupado(horario: string, agendamento: Agendamento) | Livre(horario: string) | Indisponivel(horario: string)

  /** `getByDate(data)`: the appointments whose `data` index equals the viewed date, in store order. */
  function DoDia(ags: seq<Agendamento>, data: string): (r: seq<Agendamento>)
    ensures forall i :: 0 <= i < |r| ==> r[i].data == data && r[i] in ags
    ensures forall i :: 0 <= i < |ags| && ags[i].data == data ==> ags[i] in r
    ensures forall x :: multiset(r)[x] == if x.data == data then multiset(ags)[x] else 0
  {
    var doDia := (a: Agendamento) => a.data == data;
    FilterCounts(ags, doDia);
    FilterMembers(ags, doDia);
    Filter(ags, doDia)
  }

  /** The day's appointments of two store segments come in segment order, so the store order decides which one `find` meets first. */
  lemma DoDiaAppend(a: seq<Agendamento>, b: seq<Agendamento>, data: string)
    ensures DoDia(a + b, data) == DoDia(a, data) + DoDia(b, data)
  {
    FilterAppend(a, b, (x: Agendamento) => x.data == data);
  }

  /** `agendamentosDia.find(ag => ag.horario === horario)`: the first appointment at that label. */
  function NoHorario(ags: seq<Agendamento>, horario: string): (r: Option<Agendamento>)
    ensures r.None? <==> forall i :: 0 <= i < |ags| ==> ags[i].horario != horario
    ensures r.Some? ==> exists i :: (0 <= i < |ags| && ags[i] == r.value && ags[i].horario == horario
      && forall j :: 0 <= j < i ==> ags[j].horario != horario)
  {
    if |ags| == 0 then None
    else if ags[0].horario == horario then Some(ags[0])
    else
      var r := NoHorario(ags[1..], horario);
      assert r.Some? ==> exists i :: (0 <= i < |ags[1..]| && ags[1..][i] == r.value && ags[1..][i].horario == horario
        && forall j :: 0 <= j < i ==> ags[1..][j].horario != horario);
      assert forall i :: 1 <= i < |ags| ==> ags[i] == ags[1..][i - 1];
      r
  }

  /** A time can be booked only when it is strictly later than now. */
  predicate NoFuturo(instante: int, agora: int)
  {
    instante > agora
  }

  /** The slot for `hora:minutos` of a day whose appointments are `dia`. */
  function Classificar(dia: seq<Agendamento>, diaMs: int, agora: int, hora: nat, minutos: nat): (s: Slot)
    requires hora < 24 && minutos < 60
    ensures s.horario == Horario(hora, minutos)
    ensures s.Ocupado? <==> NoHorario(dia, s.horario).Some?
    ensures s.Ocupado? ==> NoHorario(dia, s.horario) == Some(s.agendamento)
    ensures s.Livre? <==> NoHorario(dia, s.horario).None? && NoFuturo(diaMs + (hora * 60 + minutos) * MinuteMs, agora)
  {
    var horario := Horario(hora, minutos);
    match NoHorario(dia, horario)
    case Some(a) => Ocupado(horario, a)
    case None =>
      if NoFuturo(diaMs + (hora * 60 + minutos) * MinuteMs, agora) then Livre(horario) else Indisponivel(horario)
  }

  /** The hour and minute of the `k`-th slot of the day. */
  function HoraSlot(k: nat): nat
  {
    PrimeiraHora + k / 2
  }

  function MinutosSlot(k: nat): nat
  {
    PassoMinutos * (k % 2)
  }

  /**
   * The slot loop of the calendar view: hours 8 to 19, minutes 0 and 30, one cell each, in
   * that order.
   */
  method MontarGrade(agendamentos: seq<Agendamento>, data: string, diaMs: int, agora: int) returns (grade: seq<Slot>)
    ensures |grade| == SlotsPorDia
    ensures forall k :: 0 <= k < |grade| ==>
      HoraSlot(k) < 24 && grade[k] == Classificar(DoDia(agendamentos, data), diaMs, agora, HoraSlot(k), MinutosSlot(k))
  {
    var dia := DoDia(agendamentos, data);
    grade := [];
    var hora := PrimeiraHora;
    while hora < UltimaHora
      invariant PrimeiraHora <= hora <= UltimaHora
      invariant |grade| == 2 * (hora - PrimeiraHora)
      invariant forall k :: 0 <= k < |grade| ==>
        HoraSlot(k) < 24 && grade[k] == Classificar(dia, diaMs, agora, HoraSlot(k), MinutosSlot(k))
    {
      var minutos := 0;
      while minutos < 60
        invariant minutos == 0 || minutos == PassoMinutos || minutos == 60
        invariant |grade| == 2 * (hora - PrimeiraHora) + minutos / PassoMinutos
        invariant forall k :: 0 <= k < |grade| ==>
          HoraSlot(k) < 24 && grade[k] == Classificar(dia, diaMs, agora, HoraSlot(k), MinutosSlot(k))
      {
        assert HoraSlot(|grade|) == hora && MinutosSlot(|grade|) == minutos;
        grade := grade + [Classificar(dia, diaMs, agora, hora, minutos)];
        minutos := minutos + PassoMinutos;
      }
      hora := hora + 1;
    }
  }

  /**
   * The grid's labels: the first is 08:00 and the last 19:30, slot `k` starts 30·k minutes
   * after 08:00, and the labels are strictly increasing, so no two slots share one.
   */
  lemma {:induction false} HorariosDaGrade(k1: nat, k2: nat)
    requires k1 < k2 < SlotsPorDia
    ensures Horario(HoraSlot(0), MinutosSlot(0)) == "08:00"
    ensures Horario(HoraSlot(SlotsPorDia - 1), MinutosSlot(SlotsPorDia - 1)) == "19:30"
    ensures LerHorario(Horario(HoraSlot(k1), MinutosSlot(k1))) == Some(8 * 60 + PassoMinutos * k1)
    ensures Antes(Horario(HoraSlot(k1), MinutosSlot(k1)), Horario(HoraSlot(k2), MinutosSlot(k2)))
  {
    LerHorarioDeHorario(HoraSlot(k1), MinutosSlot(k1));
    HorarioOrdem(HoraSlot(k1), MinutosSlot(k1), HoraSlot(k2), MinutosSlot(k2));
  }

  /**
   * `selecionarHorario(horario, data)`: whether the booking form opens. A label that is not
   * a time makes an invalid Date, which compares false with now, so it is not turned away.
   */
  function SelecionarHorario(diaMs: int, horario: string, agora: int): (abre: bool)
    ensures LerHorario(horario).Some? ==>
      (abre <==> NoFuturo(diaMs + LerHorario(horario).value * MinuteMs, agora))
  {
    match LerHorario(horario)
    case None => true
    case Some(m) => NoFuturo(diaMs + m * MinuteMs, agora)
  }

  /**
   * The grid and the selection agree: a free cell's label opens the booking form and an
   * unavailable cell's label is turned away, so no past or current time can be picked.
   */
  lemma GradeESelecaoConcordam(dia: seq<Agendamento>, diaMs: int, agora: int, k: nat)
    requires k < SlotsPorDia
    ensures Classificar(dia, diaMs, agora, HoraSlot(k), MinutosSlot(k)).Livre? ==>
      SelecionarHorario(diaMs, Horario(HoraSlot(k), MinutosSlot(k)), agora)
    ensures Classificar(dia, diaMs, agora, HoraSlot(k), MinutosSlot(k)).Indisponivel? ==>
      !SelecionarHorario(diaMs, Horario(HoraSlot(k), MinutosSlot(k)), agora)
  {
    LerHorarioDeHorario(HoraSlot(k), MinutosSlot(k));
  }

  // ---------------------------------------------------------------- dates with appointments

  /** The distinct values of `s`, each where it first occurs: `[...new Set(s)]`. */
  function Distintos(s: seq<string>): (r: seq<string>)
    ensures forall x :: x in r <==> x in s
    ensures forall i, j :: 0 <= i < j < |r| ==> r[i] != r[j]
    ensures |r| <= |s|
  {
    if |s| == 0 then []
    else
      var p := Distintos(s[..|s| - 1]);
      assert forall x :: x in s <==> x in s[..|s| - 1] || x == s[|s| - 1] by {
        assert s == s[..|s| - 1] + [s[|s| - 1]];
      }
      if s[|s| - 1] in p then p else p + [s[|s| - 1]]
  }

  /** `getDatesWithAppointments`: every appointment's date, once each. */
  function DatasComAgendamentos(ags: seq<Agendamento>): (r: seq<string>)
    ensures forall d :: d in r <==> exists i :: 0 <= i < |ags| && ags[i].data == d
    ensures forall i, j :: 0 <= i < j < |r| ==> r[i] != r[j]
  {
    var datas := seq(|ags|, i requires 0 <= i < |ags| => ags[i].data);
    assert forall d :: d in datas <==> exists i :: 0 <= i < |ags| && ags[i].data == d by {
      forall d | d in datas
        ensures exists i :: 0 <= i < |ags| && ags[i].data == d
      {
        var i :| 0 <= i < |datas| && datas[i] == d;
        assert ags[i].data == d;
      }
      forall i | 0 <= i < |ags|
        ensures ags[i].data in datas
      {
        assert datas[i] == ags[i].data;
      }
    }
    Distintos(datas)
  }

  /** Appending a date already present leaves the list as it is; a new date goes at its end. */
  lemma DistintosAppend(s: seq<string>, d: string)
    ensures Distintos(s + [d]) == if d in s then Distintos(s) else Distintos(s) + [d]
  {
    assert (s + [d])[..|s|] == s;
  }

  // ---------------------------------------------------------------- the calendar overview

  /** The string order is a strict order: never both ways round, and any two different strings are ordered. */
  lemma {:induction false} AntesOrdemEstrita(s: string, t: string)
    ensures !(Antes(s, t) && Antes(t, s))
    ensures s != t ==> Antes(s, t) || Antes(t, s)
    decreases |s|
  {
    if |s| > 0 && |t| > 0 {
      AntesOrdemEstrita(s[1..], t[1..]);
      if s[0] == t[0] && s[1..] == t[1..] {
        assert s == [s[0]] + s[1..] && t == [t[0]] + t[1..];
      }
    }
  }

  /** Strictly ascending, each entry before the next. */
  predicate Crescente(s: seq<string>)
  {
    forall i :: 0 <= i < |s| - 1 ==> Antes(s[i], s[i + 1])
  }

  /** Ascending by `horario`, equal labels allowed next to each other. */
  predicate PorHorario(s: seq<Agendamento>)
  {
    forall i :: 0 <= i < |s| - 1 ==> !Antes(s[i + 1].horario, s[i].horario)
  }

  /** Transitivity of the string order. */
  lemma {:induction false} AntesTransitiva(a: string, b: string, c: string)
    requires Antes(a, b) && Antes(b, c)
    ensures Antes(a, c)
    decreases |a|
  {
    if |a| > 0 && a[0] == b[0] && b[0] == c[0] {
      AntesTransitiva(a[1..], b[1..], c[1..]);
    }
  }

  /** Accepts the appointments at the label `h`. */
  function ComHorario(h: string): Agendamento -> bool
  {
    (a: Agendamento) => a.horario == h
  }

  /** The tail of a time-ordered list is time-ordered. */
  lemma PorHorarioCauda(s: seq<Agendamento>)
    requires PorHorario(s) && |s| > 0
    ensures PorHorario(s[1..])
  {
    forall i | 0 <= i < |s[1..]| - 1
      ensures !Antes(s[1..][i + 1].horario, s[1..][i].horario)
    {
      assert s[1..][i] == s[i + 1] && s[1..][i + 1] == s[i + 2];
    }
  }

  /** Filtering a list split into its first entry and the rest. */
  lemma FilterCabeca(s: seq<Agendamento>, h: string)
    requires |s| > 0
    ensures Filter(s, ComHorario(h)) == (if s[0].horario == h then [s[0]] else []) + Filter(s[1..], ComHorario(h))
  {
    assert s == [s[0]] + s[1..];
    FilterAppend([s[0]], s[1..], ComHorario(h));
    FilterSingle(s[0], ComHorario(h));
  }

  /** In a time-ordered list that starts later than `h`, no entry is at `h`. */
  lemma {:induction false} NenhumNoHorario(h: string, s: seq<Agendamento>)
    requires PorHorario(s) && |s| > 0 && Antes(h, s[0].horario)
    ensures Filter(s, ComHorario(h)) == []
    decreases |s|
  {
    AntesOrdemEstrita(h, h);
    FilterCabeca(s, h);
    if |s| > 1 {
      AntesOrdemEstrita(s[1].horario, s[0].horario);
      if s[1].horario != s[0].horario {
        AntesTransitiva(h, s[0].horario, s[1].horario);
      }
      PorHorarioCauda(s);
      NenhumNoHorario(h, s[1..]);
    } else {
      assert s[1..] == [];
    }
  }

  /** Inserting before the first entry, which is later: `a` is the only entry at its own label. */
  lemma InserirNaFrente(a: Agendamento, s: seq<Agendamento>, h: string)
    requires PorHorario(s) && |s| > 0 && Antes(a.horario, s[0].horario)
    ensures Filter([a] + s, ComHorario(h)) == Filter(s, ComHorario(h)) + (if a.horario == h then [a] else [])
  {
    FilterCabeca([a] + s, h);
    assert ([a] + s)[1..] == s;
    if a.horario == h {
      NenhumNoHorario(h, s);
    }
  }

  /** Inserting into a time-ordered list: at every label, the entries keep their order and the new one comes last. */
  lemma {:induction false} InserirEstavelEm(a: Agendamento, s: seq<Agendamento>, h: string)
    requires PorHorario(s)
    ensures Filter(InserirPorHorario(a, s), ComHorario(h)) ==
      Filter(s, ComHorario(h)) + (if a.horario == h then [a] else [])
    decreases |s|
  {
    if |s| == 0 {
      FilterSingle(a, ComHorario(h));
    } else if Antes(a.horario, s[0].horario) {
      InserirNaFrente(a, s, h);
    } else {
      var r, resto := InserirPorHorario(a, s), InserirPorHorario(a, s[1..]);
      assert r == [s[0]] + resto;
      PorHorarioCauda(s);
      InserirEstavelEm(a, s[1..], h);
      FilterCabeca(r, h);
      assert r[1..] == resto;
      FilterCabeca(s, h);
    }
  }

  /** `InserirEstavelEm` at every label at once. */
  lemma InserirEstavel(a: Agendamento, s: seq<Agendamento>)
    requires PorHorario(s)
    ensures forall h :: (Filter(InserirPorHorario(a, s), ComHorario(h)) ==
      Filter(s, ComHorario(h)) + (if a.horario == h then [a] else []))
  {
    forall h {
      InserirEstavelEm(a, s, h);
    }
  }

  /** Inserting a new date into an ascending list of dates. */
  function InserirData(d: string, s: seq<string>): (r: seq<string>)
    requires Crescente(s) && d !in s
    ensures Crescente(r) && multiset(r) == multiset(s) + multiset{d}
    ensures |r| > 0 && (r[0] == d || (|s| > 0 && r[0] == s[0]))
  {
    if |s| == 0 then [d]
    else if Antes(d, s[0]) then [d] + s
    else
      var resto := InserirData(d, s[1..]);
      AntesOrdemEstrita(d, s[0]);
      assert s == [s[0]] + s[1..];
      [s[0]] + resto
  }

  /** `.sort()` of a list of distinct dates. */
  function OrdenarDatas(s: seq<string>): (r: seq<string>)
    requires forall i, j :: 0 <= i < j < |s| ==> s[i] != s[j]
    ensures Crescente(r) && multiset(r) == multiset(s)
  {
    if |s| == 0 then []
    else
      var p := s[..|s| - 1];
      assert s == p + [s[|s| - 1]];
      assert s[|s| - 1] !in p;
      var q := OrdenarDatas(p);
      assert s[|s| - 1] !in q by {
        assert s[|s| - 1] !in multiset(p);
      }
      InserirData(s[|s| - 1], q)
  }

  /** Inserting after every entry whose label is not later, which keeps equal labels in arrival order. */
  function InserirPorHorario(a: Agendamento, s: seq<Agendamento>): (r: seq<Agendamento>)
    requires PorHorario(s)
    ensures PorHorario(r) && multiset(r) == multiset(s) + multiset{a}
    ensures |r| > 0 && (r[0] == a || (|s| > 0 && r[0] == s[0]))
  {
    if |s| == 0 then [a]
    else if Antes(a.horario, s[0].horario) then
      AntesOrdemEstrita(a.horario, s[0].horario);
      [a] + s
    else
      var resto := InserirPorHorario(a, s[1..]);
      assert s == [s[0]] + s[1..];
      [s[0]] + resto
  }

  /**
   * `appointments.sort((a, b) => a.horario.localeCompare(b.horario))`. The sort is stable:
   * the entries at one label keep their order in the input.
   */
  function OrdenarPorHorario(s: seq<Agendamento>): (r: seq<Agendamento>)
    ensures PorHorario(r) && multiset(r) == multiset(s)
    ensures forall h :: Filter(r, ComHorario(h)) == Filter(s, ComHorario(h))
  {
    if |s| == 0 then []
    else
      var p := s[..|s| - 1];
      assert s == p + [s[|s| - 1]];
      var q := OrdenarPorHorario(p);
      InserirEstavel(s[|s| - 1], q);
      InserirPorHorario(s[|s| - 1], q)
  }

  /** One day of the overview: its date and its appointments. */
  datatype Dia = Dia(data: string, agendamentos: seq<Agendamento>)

  /** The groups for the dates `datas`, in that order, each sorted by time. */
  function Grupos(ags: seq<Agendamento>, datas: seq<string>): (r: seq<Dia>)
    ensures |r| == |datas|
    ensures forall i :: 0 <= i < |r| ==> r[i].data == datas[i]
    ensures forall i :: 0 <= i < |r| ==>
      PorHorario(r[i].agendamentos) && multiset(r[i].agendamentos) == multiset(DoDia(ags, r[i].data))
    ensures forall i, h :: 0 <= i < |r| ==>
      Filter(r[i].agendamentos, ComHorario(h)) == Filter(DoDia(ags, r[i].data), ComHorario(h))
  {
    seq(|datas|, i requires 0 <= i < |datas| => Dia(datas[i], OrdenarPorHorario(DoDia(ags, datas[i]))))
  }

  /** Some appointment is on the date `d`. */
  predicate TemAgendamento(ags: seq<Agendamento>, d: string)
  {
    exists j :: 0 <= j < |ags| && ags[j].data == d
  }

  /** Some day of the overview is the date `d`. */
  predicate NaVisao(r: seq<Dia>, d: string)
  {
    exists i :: 0 <= i < |r| && r[i].data == d
  }

  /** Every date of the overview has an appointment. */
  lemma DatasTemAgendamentos(ags: seq<Agendamento>, datas: seq<string>, r: seq<Dia>)
    requires multiset(datas) == multiset(DatasComAgendamentos(ags))
    requires |r| == |datas| && forall i :: 0 <= i < |r| ==> r[i].data == datas[i]
    ensures forall i :: 0 <= i < |r| ==> TemAgendamento(ags, r[i].data)
  {
    forall i | 0 <= i < |r|
      ensures TemAgendamento(ags, r[i].data)
    {
      assert datas[i] in multiset(datas);
      assert datas[i] in DatasComAgendamentos(ags);
    }
  }

  /** Every appointment's date is in the overview. */
  lemma AgendamentosTemDatas(ags: seq<Agendamento>, datas: seq<string>, r: seq<Dia>)
    requires multiset(datas) == multiset(DatasComAgendamentos(ags))
    requires |r| == |datas| && forall i :: 0 <= i < |r| ==> r[i].data == datas[i]
    ensures forall j :: 0 <= j < |ags| ==> NaVisao(r, ags[j].data)
  {
    forall j | 0 <= j < |ags|
      ensures NaVisao(r, ags[j].data)
    {
      assert ags[j].data in DatasComAgendamentos(ags);
      assert ags[j].data in multiset(datas);
      var i :| 0 <= i < |datas| && datas[i] == ags[j].data;
      assert r[i].data == ags[j].data;
    }
  }

  /** Groups follow the order of their dates. */
  lemma DiasCrescentes(datas: seq<string>, r: seq<Dia>)
    requires Crescente(datas)
    requires |r| == |datas| && forall i :: 0 <= i < |r| ==> r[i].data == datas[i]
    ensures forall i :: 0 <= i < |r| - 1 ==> Antes(r[i].data, r[i + 1].data)
  {
    forall i | 0 <= i < |r| - 1
      ensures Antes(r[i].data, r[i + 1].data)
    {
      assert r[i].data == datas[i] && r[i + 1].data == datas[i + 1];
    }
  }

  /**
   * `updateCalendarOverview`'s grouping: one entry per date that has appointments, dates in
   * ascending order, each holding exactly that date's appointments ordered by time, with the
   * appointments at one label in their order in the store.
   */
  function VisaoGeral(ags: seq<Agendamento>): (r: seq<Dia>)
    ensures forall i :: 0 <= i < |r| ==> TemAgendamento(ags, r[i].data)
    ensures forall j :: 0 <= j < |ags| ==> NaVisao(r, ags[j].data)
    ensures forall i :: 0 <= i < |r| - 1 ==> Antes(r[i].data, r[i + 1].data)
    ensures forall i :: 0 <= i < |r| ==>
      PorHorario(r[i].agendamentos) && multiset(r[i].agendamentos) == multiset(DoDia(ags, r[i].data))
    ensures forall i, h :: 0 <= i < |r| ==>
      Filter(r[i].agendamentos, ComHorario(h)) == Filter(DoDia(ags, r[i].data), ComHorario(h))
  {
    var datas := OrdenarDatas(DatasComAgendamentos(ags));
    var r := Grupos(ags, datas);
    DatasTemAgendamentos(ags, datas, r);
    AgendamentosTemDatas(ags, datas, r);
    DiasCrescentes(datas, r);
    r
  }

}
