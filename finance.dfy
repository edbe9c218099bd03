/**
 * Financial records of app.js and the three totals of the finance panel. Money is integer
 * cents; `tipo` stays the free string the form supplies, so a record whose kind is neither
 * "receita" nor "despesa" is representable and counts in no total.
 */
module Finance {

  import opened Seqs

  const ReceitaTipo := "receita"
  const DespesaTipo := "despesa"

  datatype RegistroFinanceiro = RegistroFinanceiro(
    id: int,
    data: string,
    tipo: string,
    descricao: string,
    valor: int,
    formaPagamento: string,
    plataforma: string)

  /** What one record adds to the total of kind `tipo`. */
  function Parcela(r: RegistroFinanceiro, tipo: string): int
  {
    if r.tipo == tipo then r.valor else 0
  }

  /** Sum of `valor` over the records of kind `tipo`: the `filter` followed by `reduce` from 0. */
  function Total(rs: seq<RegistroFinanceiro>, tipo: string): int
  {
    if |rs| == 0 then 0 else Total(rs[..|rs| - 1], tipo) + Parcela(rs[|rs| - 1], tipo)
  }

  /** The revenue card: the `valor`s of the "receita" records, filtered and then summed. */
  function Receita(rs: seq<RegistroFinanceiro>): (t: int)
    ensures t == Soma(DoTipo(rs, ReceitaTipo))
  {
    TotalIsSomaDoTipo(rs, ReceitaTipo);
    Total(rs, ReceitaTipo)
  }

  /** The expense card: the `valor`s of the "despesa" records, filtered and then summed. */
  function Despesas(rs: seq<RegistroFinanceiro>): (t: int)
    ensures t == Soma(DoTipo(rs, DespesaTipo))
  {
    TotalIsSomaDoTipo(rs, DespesaTipo);
    Total(rs, DespesaTipo)
  }

  /** The profit card: revenue less expenses, each as the filter-and-reduce over all records. */
  function Lucro(rs: seq<RegistroFinanceiro>): (t: int)
    ensures t == Soma(DoTipo(rs, ReceitaTipo)) - Soma(DoTipo(rs, DespesaTipo))
  {
    Receita(rs) - Despesas(rs)
  }

  /** The records of one kind, in their order: the `filter` on `tipo`. */
  function DoTipo(rs: seq<RegistroFinanceiro>, tipo: string): (r: seq<RegistroFinanceiro>)
    ensures forall i :: 0 <= i < |r| ==> r[i].tipo == tipo && r[i] in rs
    ensures forall i :: 0 <= i < |rs| && rs[i].tipo == tipo ==> rs[i] in r
    ensures forall x :: multiset(r)[x] == if x.tipo == tipo then multiset(rs)[x] else 0
  {
    var doTipo := (x: RegistroFinanceiro) => x.tipo == tipo;
    FilterCounts(rs, doTipo);
    FilterMembers(rs, doTipo);
    Filter(rs, doTipo)
  }

  /** The records of one kind from two batches come batch by batch, each in its own order. */
  lemma DoTipoAppend(a: seq<RegistroFinanceiro>, b: seq<RegistroFinanceiro>, tipo: string)
    ensures DoTipo(a + b, tipo) == DoTipo(a, tipo) + DoTipo(b, tipo)
  {
    FilterAppend(a, b, (x: RegistroFinanceiro) => x.tipo == tipo);
  }

  /** Plain sum of `valor`. */
  function Soma(rs: seq<RegistroFinanceiro>): int
  {
    if |rs| == 0 then 0 else Soma(rs[..|rs| - 1]) + rs[|rs| - 1].valor
  }

  lemma {:induction false} SomaAppend(a: seq<RegistroFinanceiro>, b: seq<RegistroFinanceiro>)
    ensures Soma(a + b) == Soma(a) + Soma(b)
  {
    if |b| > 0 {
      assert (a + b)[..|a + b| - 1] == a + b[..|b| - 1];
      SomaAppend(a, b[..|b| - 1]);
    } else {
      assert a + b == a;
    }
  }

  /** A kind's total is the sum over the records the filter keeps. */
  lemma {:induction false} TotalIsSomaDoTipo(rs: seq<RegistroFinanceiro>, tipo: string)
    ensures Total(rs, tipo) == Soma(DoTipo(rs, tipo))
  {
    if |rs| > 0 {
      var last := rs[|rs| - 1];
      TotalIsSomaDoTipo(rs[..|rs| - 1], tipo);
      SomaAppend(DoTipo(rs[..|rs| - 1], tipo), if last.tipo == tipo then [last] else []);
      assert Soma([last]) == Soma([]) + last.valor by { assert [last][..0] == []; }
    }
  }

  /** A kind no record has totals 0. */
  lemma {:induction false} TotalSemRegistros(rs: seq<RegistroFinanceiro>, tipo: string)
    requires forall i :: 0 <= i < |rs| ==> rs[i].tipo != tipo
    ensures Total(rs, tipo) == 0
  {
    if |rs| > 0 {
      TotalSemRegistros(rs[..|rs| - 1], tipo);
    }
  }

  /** With no negative amounts, no total is negative. */
  lemma {:induction false} TotalNaoNegativo(rs: seq<RegistroFinanceiro>, tipo: string)
    requires forall i :: 0 <= i < |rs| ==> rs[i].valor >= 0
    ensures Total(rs, tipo) >= 0
  {
    if |rs| > 0 {
      TotalNaoNegativo(rs[..|rs| - 1], tipo);
    }
  }

  /** Totals are additive over concatenation: records may be totalled in batches. */
  lemma {:induction false} TotalAppend(a: seq<RegistroFinanceiro>, b: seq<RegistroFinanceiro>, tipo: string)
    ensures Total(a + b, tipo) == Total(a, tipo) + Total(b, tipo)
  {
    if |b| > 0 {
      assert (a + b)[..|a + b| - 1] == a + b[..|b| - 1];
      assert (a + b)[|a + b| - 1] == b[|b| - 1];
      TotalAppend(a, b[..|b| - 1], tipo);
    } else {
      assert a + b == a;
    }
  }

  lemma TotalSingle(r: RegistroFinanceiro, tipo: string)
    ensures Total([r], tipo) == Parcela(r, tipo)
  {
    assert [r][..0] == [];
  }

  /** Removing one record from the middle removes exactly its contribution. */
  lemma TotalRemoveAt(rs: seq<RegistroFinanceiro>, k: nat, tipo: string)
    requires k < |rs|
    ensures Total(rs, tipo) == Total(rs[..k] + rs[k + 1..], tipo) + Parcela(rs[k], tipo)
  {
    assert rs == rs[..k] + [rs[k]] + rs[k + 1..];
    TotalAppend(rs[..k] + [rs[k]], rs[k + 1..], tipo);
    TotalAppend(rs[..k], [rs[k]], tipo);
    TotalAppend(rs[..k], rs[k + 1..], tipo);
    TotalSingle(rs[k], tipo);
  }

  /** Taking the last record of `a` and the same record out of a permutation `b` of it. */
  lemma SemUmIgual(a: seq<RegistroFinanceiro>, b: seq<RegistroFinanceiro>, k: nat)
    requires multiset(a) == multiset(b) && |a| > 0 && k < |b| && b[k] == a[|a| - 1]
    ensures multiset(a[..|a| - 1]) == multiset(b[..k] + b[k + 1..])
  {
    var last := a[|a| - 1];
    assert a == a[..|a| - 1] + [last];
    assert b == b[..k] + [last] + b[k + 1..];
    assert multiset(a[..|a| - 1]) == multiset(a) - multiset{last};
    assert multiset(b[..k] + b[k + 1..]) == multiset(b) - multiset{last};
  }

  /**
   * The totals do not depend on the order of the records: the object store hands them back
   * in key order, and any order gives the same panel.
   */
  lemma {:induction false} TotalPermutation(a: seq<RegistroFinanceiro>, b: seq<RegistroFinanceiro>, tipo: string)
    requires multiset(a) == multiset(b)
    ensures Total(a, tipo) == Total(b, tipo)
    decreases |a|
  {
    if |a| == 0 {
      assert |b| == |multiset(b)| == 0;
    } else {
      var last := a[|a| - 1];
      assert a == a[..|a| - 1] + [last];
      assert last in multiset(b);
      var k :| 0 <= k < |b| && b[k] == last;
      assert b == b[..k] + [b[k]] + b[k + 1..];
      var rest := b[..k] + b[k + 1..];
      SemUmIgual(a, b, k);
      TotalPermutation(a[..|a| - 1], rest, tipo);
      TotalRemoveAt(b, k, tipo);
    }
  }

  /**
   * The panel's three figures: a revenue record raises revenue and profit by its value and
   * leaves expenses alone; an expense record does the converse; any other kind changes none.
   */
  lemma LancamentoNosTotais(rs: seq<RegistroFinanceiro>, r: RegistroFinanceiro)
    ensures Receita(rs + [r]) == Receita(rs) + (if r.tipo == ReceitaTipo then r.valor else 0)
    ensures Despesas(rs + [r]) == Despesas(rs) + (if r.tipo == DespesaTipo then r.valor else 0)
    ensures r.tipo != ReceitaTipo && r.tipo != DespesaTipo ==> Lucro(rs + [r]) == Lucro(rs)
    ensures r.tipo == ReceitaTipo ==> Lucro(rs + [r]) == Lucro(rs) + r.valor
    ensures r.tipo == DespesaTipo ==> Lucro(rs + [r]) == Lucro(rs) - r.valor
  {
    assert (rs + [r])[..|rs|] == rs;
  }

  /** Profit is revenue minus expenses and is additive over batches of records. */
  lemma LucroAppend(a: seq<RegistroFinanceiro>, b: seq<RegistroFinanceiro>)
    ensures Lucro(a + b) == Lucro(a) + Lucro(b)
    ensures Receita(a + b) == Receita(a) + Receita(b)
    ensures Despesas(a + b) == Despesas(a) + Despesas(b)
  {
    TotalAppend(a, b, ReceitaTipo);
    TotalAppend(a, b, DespesaTipo);
  }

  // ---------------------------------------------------------------- totals of a keyed store

  /** `ks` lists every key of the store exactly once, in some order. */
  predicate ListaChaves(m: map<int, RegistroFinanceiro>, ks: seq<int>)
  {
    (forall i :: 0 <= i < |ks| ==> ks[i] in m)
    && (forall i, j :: 0 <= i < j < |ks| ==> ks[i] != ks[j])
    && (forall k :: k in m ==> k in ks)
  }

  /** The list a store hands back for the keys `ks`, in that order. */
  function Listagem(m: map<int, RegistroFinanceiro>, ks: seq<int>): (r: seq<RegistroFinanceiro>)
    requires forall i :: 0 <= i < |ks| ==> ks[i] in m
    ensures |r| == |ks| && forall i :: 0 <= i < |ks| ==> r[i] == m[ks[i]]
  {
    seq(|ks|, i requires 0 <= i < |ks| => m[ks[i]])
  }

  /** Taking the last key of `ks1` and the same key out of `ks2` keeps them two listings of one set. */
  lemma ChavesSemUma(ks1: seq<int>, ks2: seq<int>, j: nat, resto: seq<int>)
    requires |ks1| > 0 && j < |ks2| && ks2[j] == ks1[|ks1| - 1] && resto == ks2[..j] + ks2[j + 1..]
    requires forall a, b :: 0 <= a < b < |ks1| ==> ks1[a] != ks1[b]
    requires forall a, b :: 0 <= a < b < |ks2| ==> ks2[a] != ks2[b]
    requires forall k :: k in ks1 <==> k in ks2
    ensures forall x :: x in ks1[..|ks1| - 1] <==> x in resto
    ensures forall a, b :: 0 <= a < b < |resto| ==> resto[a] != resto[b]
  {
    var n := |ks1| - 1;
    var k := ks1[n];
    assert forall x :: x in ks1[..n] <==> x in resto by {
      assert ks1 == ks1[..n] + [k];
      assert ks2 == ks2[..j] + [k] + ks2[j + 1..];
      forall x
        ensures x in ks1[..n] <==> x in resto
      {
        if x in ks1[..n] {
          var i :| 0 <= i < n && ks1[..n][i] == x;
          assert ks1[i] == x && x != k && x in ks2;
          var i2 :| 0 <= i2 < |ks2| && ks2[i2] == x;
          if i2 < j {
            assert ks2[..j][i2] == x;
          } else {
            assert i2 > j && ks2[j + 1..][i2 - j - 1] == x;
          }
        }
        if x in resto {
          if x in ks2[..j] {
            var i :| 0 <= i < j && ks2[..j][i] == x;
            assert ks2[i] == x && x != k;
          } else {
            assert x in ks2[j + 1..];
            var i :| 0 <= i < |ks2| - j - 1 && ks2[j + 1..][i] == x;
            assert ks2[j + 1 + i] == x && x != k;
          }
          assert x in ks1;
          var i1 :| 0 <= i1 < |ks1| && ks1[i1] == x;
          assert i1 < n && ks1[..n][i1] == x;
        }
      }
    }
    RestoDistinto(ks2, j, resto);
  }

  /** Taking one key out of a list without repeats leaves a list without repeats. */
  lemma RestoDistinto(ks: seq<int>, j: nat, resto: seq<int>)
    requires j < |ks| && resto == ks[..j] + ks[j + 1..]
    requires forall a, b :: 0 <= a < b < |ks| ==> ks[a] != ks[b]
    ensures forall a, b :: 0 <= a < b < |resto| ==> resto[a] != resto[b]
  {
    forall a, b | 0 <= a < b < |resto|
      ensures resto[a] != resto[b]
    {
      var a' := if a < j then a else a + 1;
      var b' := if b < j then b else b + 1;
      assert resto[a] == ks[a'] && resto[b] == ks[b'];
    }
  }

  /**
   * Whatever order the store lists its records in, the totals are the same: two listings of
   * the same keys, each key once (so equally long), total alike.
   */
  lemma {:induction false} TotalIndependeDaOrdem(m: map<int, RegistroFinanceiro>, ks1: seq<int>, ks2: seq<int>, tipo: string)
    requires forall i :: 0 <= i < |ks1| ==> ks1[i] in m
    requires forall i :: 0 <= i < |ks2| ==> ks2[i] in m
    requires forall i, j :: 0 <= i < j < |ks1| ==> ks1[i] != ks1[j]
    requires forall i, j :: 0 <= i < j < |ks2| ==> ks2[i] != ks2[j]
    requires forall k :: k in ks1 <==> k in ks2
    requires |ks1| == |ks2|
    ensures Total(Listagem(m, ks1), tipo) == Total(Listagem(m, ks2), tipo)
    decreases |ks1|
  {
    if |ks1| > 0 {
      var n := |ks1| - 1;
      var k := ks1[n];
      assert k in ks1;
      var j :| 0 <= j < |ks2| && ks2[j] == k;
      var resto := ks2[..j] + ks2[j + 1..];
      ChavesSemUma(ks1, ks2, j, resto);
      TotalIndependeDaOrdem(m, ks1[..n], resto, tipo);
      TotalSemChave(m, ks1, ks2, j, resto, tipo);
    }
  }

  /** Listing the keys without the one at `j` lists the records without the one at `j`. */
  lemma ListagemSemUma(m: map<int, RegistroFinanceiro>, ks: seq<int>, j: nat, resto: seq<int>)
    requires forall i :: 0 <= i < |ks| ==> ks[i] in m
    requires j < |ks| && resto == ks[..j] + ks[j + 1..]
    ensures Listagem(m, ks)[..j] + Listagem(m, ks)[j + 1..] == Listagem(m, resto)
  {
  }

  /** One step of `TotalIndependeDaOrdem`: the last key of `ks1`, found at `j` in `ks2`, contributes alike. */
  lemma TotalSemChave(m: map<int, RegistroFinanceiro>, ks1: seq<int>, ks2: seq<int>, j: nat, resto: seq<int>, tipo: string)
    requires forall i :: 0 <= i < |ks1| ==> ks1[i] in m
    requires forall i :: 0 <= i < |ks2| ==> ks2[i] in m
    requires |ks1| > 0 && j < |ks2| && ks2[j] == ks1[|ks1| - 1] && resto == ks2[..j] + ks2[j + 1..]
    requires Total(Listagem(m, ks1[..|ks1| - 1]), tipo) == Total(Listagem(m, resto), tipo)
    ensures Total(Listagem(m, ks1), tipo) == Total(Listagem(m, ks2), tipo)
  {
    var n := |ks1| - 1;
    var k := ks1[n];
    assert Listagem(m, ks1) == Listagem(m, ks1[..n]) + [m[k]];
    ListagemSemUma(m, ks2, j, resto);
    TotalRemoveAt(Listagem(m, ks2), j, tipo);
    TotalAppend(Listagem(m, ks1[..n]), [m[k]], tipo);
    TotalSingle(m[k], tipo);
  }

  /**
   * Storing a record under a new key adds exactly its contribution: the store's listing
   * with the new key at the end totals that much more.
   */
  lemma TotalAoArmazenar(m: map<int, RegistroFinanceiro>, ks: seq<int>, key: int, r: RegistroFinanceiro, tipo: string)
    requires ListaChaves(m, ks) && key !in m
    ensures ListaChaves(m[key := r], ks + [key])
    ensures Total(Listagem(m[key := r], ks + [key]), tipo) == Total(Listagem(m, ks), tipo) + Parcela(r, tipo)
  {
    var m' := m[key := r];
    assert Listagem(m', ks + [key]) == Listagem(m, ks) + [r];
    TotalAppend(Listagem(m, ks), [r], tipo);
    TotalSingle(r, tipo);
  }
}
