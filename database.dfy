/**
 * The localStorage record store of the console (database.js): one object holding four
 * collections (`clientes`, `servicos`, `produtos`, `agendamentos`), each an array of records
 * with the same four operations. A collection is modelled once, as the generic class
 * `Collection`, and the store holds four instances of it.
 */
module Database {
  import opened Wrappers

  /** Record identifiers are strings (the store writes `Date.now().toString()`). */
  type Id = string

  /** A stored record: the caller's value plus the id the store forces onto it (`{ ...value, id }`). */
  datatype Keyed<T> = Keyed(id: Id, fields: T)

  /** One entry of a service's consumption list: which product, and how many units. */
  datatype Usage = Usage(produtoId: Id, quantidade: int)

  /** A service; money in cents, `duracao` in minutes, absent fields as `None`. */
  datatype Servico = Servico(
    nome: string,
    preco: int,
    duracao: Option<int>,
    descricao: string,
    produtosUtilizados: Option<seq<Usage>>)

  /** A product; `estoque` is the units in stock. */
  datatype Produto = Produto(nome: string, preco: int, estoque: int, descricao: string)

  /** A client as registered through the client form. */
  datatype Cliente = Cliente(
    nome: string,
    telefone: string,
    email: string,
    possuiAlergias: bool,
    descricaoAlergias: string,
    gestante: bool,
    observacoes: string)

  /**
   * An appointment as booked through the agenda; times are milliseconds since the epoch and
   * `servicoInfo` is the snapshot of the service taken at booking time.
   */
  datatype Agendamento = Agendamento(
    clienteId: Id,
    cliente: string,
    servicoId: Id,
    servico: string,
    start: int,
    end: int,
    observacoes: string,
    status: string,
    servicoInfo: Option<Keyed<Servico>>,
    dataCriacao: int)

  /** `findIndex(r => r.id === id)`: the first position holding that id, or `None` for -1. */
  function FirstIndex<T>(rs: seq<Keyed<T>>, id: Id): (r: Option<nat>)
    ensures r.Some? ==> r.value < |rs| && rs[r.value].id == id
    ensures r.Some? ==> forall j :: 0 <= j < r.value ==> rs[j].id != id
    ensures r.None? <==> forall j :: 0 <= j < |rs| ==> rs[j].id != id
  {
    if |rs| == 0 then None
    else if rs[0].id == id then Some(0)
    else match FirstIndex(rs[1..], id)
      case None => None
      case Some(i) => Some(i + 1)
  }

  /** `find(r => r.id === id)`: the first record holding that id, or `None` for `undefined`. */
  function Find<T>(rs: seq<Keyed<T>>, id: Id): (r: Option<Keyed<T>>)
    ensures r.Some? ==> r.value in rs && r.value.id == id
    ensures r.None? <==> forall j :: 0 <= j < |rs| ==> rs[j].id != id
  {
    if |rs| == 0 then None
    else if rs[0].id == id then Some(rs[0])
    else Find(rs[1..], id)
  }

  /** `find` and `findIndex` agree: the record found is the one at the first matching index. */
  lemma {:induction false} FindAtFirstIndex<T>(rs: seq<Keyed<T>>, id: Id)
    ensures Find(rs, id).Some? <==> FirstIndex(rs, id).Some?
    ensures FirstIndex(rs, id).Some? ==> Find(rs, id) == Some(rs[FirstIndex(rs, id).value])
  {
    if |rs| > 0 && rs[0].id != id {
      FindAtFirstIndex(rs[1..], id);
    }
  }

  /**
   * The records after `update(id, value)`: the first record holding `id` is replaced by the
   * whole new value carrying that id; with no such record nothing changes.
   */
  function Updated<T>(rs: seq<Keyed<T>>, id: Id, value: T): (r: seq<Keyed<T>>)
    ensures |r| == |rs|
    ensures forall j :: 0 <= j < |rs| ==>
      r[j] == if FirstIndex(rs, id) == Some(j) then Keyed(id, value) else rs[j]
  {
    match FirstIndex(rs, id)
    case None => rs
    case Some(i) => rs[i := Keyed(id, value)]
  }

  /** The records after `delete(id)`: `filter(r => r.id !== id)`. */
  function Without<T>(rs: seq<Keyed<T>>, id: Id): (r: seq<Keyed<T>>)
    ensures |r| <= |rs|
    ensures forall j :: 0 <= j < |r| ==> r[j].id != id
    ensures forall x :: x in r ==> x in rs && x.id != id
    ensures forall j :: 0 <= j < |rs| && rs[j].id != id ==> rs[j] in r
  {
    if |rs| == 0 then []
    else (if rs[0].id == id then [] else [rs[0]]) + Without(rs[1..], id)
  }

  /** Deleting keeps the relative order of the survivors: it distributes over concatenation. */
  lemma {:induction false} WithoutAppend<T>(a: seq<Keyed<T>>, b: seq<Keyed<T>>, id: Id)
    ensures Without(a + b, id) == Without(a, id) + Without(b, id)
  {
    if |a| == 0 {
      assert a + b == b;
    } else {
      assert (a + b)[1..] == a[1..] + b;
      WithoutAppend(a[1..], b, id);
    }
  }

  /** Deleting an id no record carries leaves the collection as it was. */
  lemma {:induction false} WithoutAbsent<T>(rs: seq<Keyed<T>>, id: Id)
    requires forall j :: 0 <= j < |rs| ==> rs[j].id != id
    ensures Without(rs, id) == rs
  {
    if |rs| > 0 {
      WithoutAbsent(rs[1..], id);
    }
  }

  /** Deleting removes exactly the records with that id: the others are counted as before. */
  lemma {:induction false} WithoutCounts<T>(rs: seq<Keyed<T>>, id: Id, x: Keyed<T>)
    ensures multiset(Without(rs, id))[x] == if x.id == id then 0 else multiset(rs)[x]
  {
    if |rs| > 0 {
      var head := if rs[0].id == id then [] else [rs[0]];
      assert Without(rs, id) == head + Without(rs[1..], id);
      assert multiset(Without(rs, id)) == multiset(head) + multiset(Without(rs[1..], id));
      WithoutCounts(rs[1..], id, x);
      assert rs == [rs[0]] + rs[1..];
      assert multiset(rs) == multiset([rs[0]]) + multiset(rs[1..]);
    }
  }

  /** One collection of the store: an array of records mutated in place. */
  class Collection<T> {
    var records: seq<Keyed<T>>

    constructor ()
      ensures records == []
    {
      records := [];
    }

    /** `add`: assign the id (passed in here) and append at the end. */
    method Add(id: Id, value: T) returns (r: Keyed<T>)
      modifies this
      ensures r == Keyed(id, value)
      ensures records == old(records) + [r]
      ensures |records| == |old(records)| + 1
      ensures forall j :: 0 <= j < |old(records)| ==> records[j] == old(records)[j]
    {
      r := Keyed(id, value);
      records := records + [r];
    }

    /** `get`: the first record with that id, if any. */
    method Get(id: Id) returns (r: Option<Keyed<T>>)
      ensures r == Find(records, id)
      ensures r.Some? ==> r.value in records && r.value.id == id
      ensures r.None? <==> forall j :: 0 <= j < |records| ==> records[j].id != id
    {
      r := Find(records, id);
    }

    /** `update`: replace the first record with that id by the new value, forcing the id. */
    method Update(id: Id, value: T)
      modifies this
      ensures records == Updated(old(records), id, value)
      ensures FirstIndex(old(records), id).None? ==> records == old(records)
    {
      var index := FirstIndex(records, id);
      if index.Some? {
        records := records[index.value := Keyed(id, value)];
      }
    }

    /** `delete`: drop every record with that id. */
    method Delete(id: Id)
      modifies this
      ensures records == Without(old(records), id)
    {
      records := Without(records, id);
    }

    /** Import of one sheet: the whole collection is replaced by the sheet's rows. */
    method Replace(rows: seq<Keyed<T>>)
      modifies this
      ensures records == rows
    {
      records := rows;
    }
  }

  /** The rows of an imported workbook, one entry per collection; `None` when no sheet has its name. */
  datatype Workbook = Workbook(
    clientes: Option<seq<Keyed<Cliente>>>,
    servicos: Option<seq<Keyed<Servico>>>,
    produtos: Option<seq<Keyed<Produto>>>,
    agendamentos: Option<seq<Keyed<Agendamento>>>)

  /** The collection after an import: the sheet's rows if the sheet is there, else unchanged. */
  function Imported<T>(sheet: Option<seq<Keyed<T>>>, current: seq<Keyed<T>>): (r: seq<Keyed<T>>)
    ensures sheet.None? ==> r == current
    ensures sheet.Some? ==> r == sheet.value
  {
    match sheet
    case None => current
    case Some(rows) => rows
  }

  /** The store object: the four collections. */
  class Store {
    const clientes: Collection<Cliente>
    const servicos: Collection<Servico>
    const produtos: Collection<Produto>
    const agendamentos: Collection<Agendamento>

    constructor ()
      ensures fresh(clientes) && fresh(servicos) && fresh(produtos) && fresh(agendamentos)
      ensures clientes.records == [] && servicos.records == []
      ensures produtos.records == [] && agendamentos.records == []
    {
      clientes := new Collection();
      servicos := new Collection();
      produtos := new Collection();
      agendamentos := new Collection();
    }

    /** `loadFromExcel`: every sheet replaces the collection of the same name; the others stay. */
    method LoadFromWorkbook(wb: Workbook)
      modifies clientes, servicos, produtos, agendamentos
      ensures clientes.records == Imported(wb.clientes, old(clientes.records))
      ensures servicos.records == Imported(wb.servicos, old(servicos.records))
      ensures produtos.records == Imported(wb.produtos, old(produtos.records))
      ensures agendamentos.records == Imported(wb.agendamentos, old(agendamentos.records))
    {
      if wb.clientes.Some? { clientes.Replace(wb.clientes.value); }
      if wb.servicos.Some? { servicos.Replace(wb.servicos.value); }
      if wb.produtos.Some? { produtos.Replace(wb.produtos.value); }
      if wb.agendamentos.Some? { agendamentos.Replace(wb.agendamentos.value); }
    }
  }

  /**
   * The value the service edit form submits: name, price, duration and description only,
   * so the consumption list is absent.
   */
  function EditedServico(nome: string, preco: int, duracao: int, descricao: string): (s: Servico)
    ensures s.produtosUtilizados.None?
    ensures s.nome == nome && s.preco == preco && s.duracao == Some(duracao) && s.descricao == descricao
  {
    Servico(nome, preco, Some(duracao), descricao, None)
  }

  /** After an update of a present id, that id is first found at the same place. */
  lemma UpdatedFirstIndex<T>(rs: seq<Keyed<T>>, id: Id, value: T)
    requires FirstIndex(rs, id).Some?
    ensures FirstIndex(Updated(rs, id, value), id) == FirstIndex(rs, id)
  {
    var i := FirstIndex(rs, id).value;
    var rs' := Updated(rs, id, value);
    assert rs'[i].id == id;
    assert forall j :: 0 <= j < i ==> rs'[j] == rs[j];
    assert FirstIndex(rs', id).Some?;
    var i' := FirstIndex(rs', id).value;
    assert !(i' < i);
    assert !(i < i');
  }

  /** `get` after `update` of a present id returns exactly the new value with that id. */
  lemma UpdatedThenFind<T>(rs: seq<Keyed<T>>, id: Id, value: T)
    requires Find(rs, id).Some?
    ensures Find(Updated(rs, id, value), id) == Some(Keyed(id, value))
  {
    FindAtFirstIndex(rs, id);
    UpdatedFirstIndex(rs, id, value);
    FindAtFirstIndex(Updated(rs, id, value), id);
  }

  /**
   * `update` replaces the whole record: after the service edit, looking the service up again
   * gives the new fields and no consumption list, whatever the old record held.
   */
  lemma EditLosesUsages(rs: seq<Keyed<Servico>>, id: Id, nome: string, preco: int, duracao: int, descricao: string)
    requires Find(rs, id).Some?
    ensures var s := Find(Updated(rs, id, EditedServico(nome, preco, duracao, descricao)), id);
      s.Some? && s.value.id == id && s.value.fields.produtosUtilizados.None?
  {
    UpdatedThenFind(rs, id, EditedServico(nome, preco, duracao, descricao));
  }
}
