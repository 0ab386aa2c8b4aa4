/** What a completed favorite drop does to the store's local list. `atualizarOrdemFavoritos`
    replaces the whole local list with the one or two sections the drop sends and leaves their
    `ordem` fields as they were. Two consequences follow: the favorites of every other section
    disappear from the local list, and a drop inside one section reads back in its old order.
    `Reconciliar` is the local list the reorder evidently means to leave. */
module Reordenacao {
  import opened Seqs
  import opened Records
  import opened Ordering
  import opened Supabase
  import opened FavoritosContext
  import opened Sortable
  import opened ListaFavoritos

  // ---------------------------------------------------------------------------------------------
  // What the drops send, as written

  /** Every favorite a same-section drop sends comes from that section, and every favorite of that
      section is sent. */
  lemma PlanoElementosMesma(todos: seq<Favorito>, favoritos: seq<Favorito>, activeId: Id, overId: Id)
    requires FindFavorito(todos, activeId).Some? && FindFavorito(todos, overId).Some?
    requires FindFavorito(todos, activeId).value.secaoId == FindFavorito(todos, overId).value.secaoId
    requires PlanoFavorito(todos, favoritos, activeId, overId).Some?
    ensures var sec := FindFavorito(todos, activeId).value.secaoId;
      var r := PlanoFavorito(todos, favoritos, activeId, overId).value;
      && (forall i :: 0 <= i < |r| ==> r[i].secaoId == sec && r[i] in favoritos)
      && (forall f :: f in favoritos && f.secaoId == sec ==> f.id in IdsOf(r))
  {
    var sec := FindFavorito(todos, activeId).value.secaoId;
    var r := PlanoFavorito(todos, favoritos, activeId, overId).value;
    PlanoMesmaSecao(todos, favoritos, activeId, overId);
    RearranjoDaSecao(favoritos, sec, r);
  }

  /** A rearrangement of one section's favorites holds only store favorites, and every favorite of
      that section under its id. */
  lemma RearranjoDaSecao(favoritos: seq<Favorito>, sec: Id, r: seq<Favorito>)
    requires multiset(r) == multiset(OfSection(favoritos, sec))
    ensures forall i :: 0 <= i < |r| ==> r[i] in favoritos
    ensures forall f :: f in favoritos && f.secaoId == sec ==> f.id in IdsOf(r)
  {
    FilterMembers(favoritos, InSecao(sec));
    forall i | 0 <= i < |r| ensures r[i] in favoritos {
      assert r[i] in multiset(OfSection(favoritos, sec));
    }
    forall f | f in favoritos && f.secaoId == sec ensures f.id in IdsOf(r) {
      assert f in multiset(r);
      IdDeMembro(r, f);
    }
  }

  /** Every favorite a cross-section drop sends comes from the source or the destination section,
      or is the dragged one retagged; every favorite of either section is sent under its id. */
  lemma PlanoElementosEntre(favoritos: seq<Favorito>, arrastado: Favorito, destino: Favorito)
    ensures var src, dst := arrastado.secaoId, destino.secaoId;
      var r := MoverEntreSecoes(favoritos, arrastado, destino);
      && (forall i :: 0 <= i < |r| ==>
            (r[i].secaoId == src || r[i].secaoId == dst) && (r[i] in favoritos || r[i].id == arrastado.id))
      && (forall f :: f in favoritos && (f.secaoId == src || f.secaoId == dst) ==> f.id in IdsOf(r))
  {
    var src, dst := arrastado.secaoId, destino.secaoId;
    var ls, ld := FavoritosPorSecao(favoritos, src), FavoritosPorSecao(favoritos, dst);
    var origem, resto := Origem(favoritos, arrastado), Resto(favoritos, arrastado, destino);
    var movido := arrastado.(secaoId := dst);
    var pos := FindIndex(resto, TemId(destino.id));
    var p := if pos >= 0 then pos else 0;
    var r := MoverEntreSecoes(favoritos, arrastado, destino);
    assert r == origem + InsertAt(resto, p, movido);
    InsertAtMembers(resto, p, movido);
    PorSecaoMembros(favoritos, src);
    PorSecaoMembros(favoritos, dst);
    FilterMembers(ls, SemId(arrastado.id));
    FilterMembers(ld, SemId(arrastado.id));
    forall i | 0 <= i < |r|
      ensures (r[i].secaoId == src || r[i].secaoId == dst) && (r[i] in favoritos || r[i].id == arrastado.id)
    {
      assert r[i] in r;
    }
    forall f | f in favoritos && (f.secaoId == src || f.secaoId == dst) ensures f.id in IdsOf(r) {
      if f.id == arrastado.id {
        IdDeMembro(r, movido);
      } else {
        assert f in r;
        IdDeMembro(r, f);
      }
    }
  }

  /** A listed favorite's id is among the list's ids. */
  lemma IdDeMembro(fs: seq<Favorito>, f: Favorito)
    requires f in fs
    ensures f.id in IdsOf(fs)
  {
    var i :| 0 <= i < |fs| && fs[i] == f;
  }

  /** What any drop sends holds favorites of the dragged favorite's section and the target's only;
      since the store takes it as its whole local list, every favorite of any other section is gone
      from the local list after the drop. */
  lemma PlanoSoDuasSecoes(todos: seq<Favorito>, favoritos: seq<Favorito>, activeId: Id, overId: Id)
    requires FindFavorito(todos, activeId).Some? && FindFavorito(todos, overId).Some?
    requires PlanoFavorito(todos, favoritos, activeId, overId).Some?
    ensures var src := FindFavorito(todos, activeId).value.secaoId;
      var dst := FindFavorito(todos, overId).value.secaoId;
      var r := PlanoFavorito(todos, favoritos, activeId, overId).value;
      forall f: Favorito :: f.secaoId != src && f.secaoId != dst ==> f !in r
  {
    var arr, des := FindFavorito(todos, activeId).value, FindFavorito(todos, overId).value;
    if arr.secaoId == des.secaoId {
      PlanoElementosMesma(todos, favoritos, activeId, overId);
    } else {
      PlanoElementosEntre(favoritos, arr, des);
    }
  }

  /** Because the local `ordem` fields are not rewritten, a drop inside a section whose favorites
      have distinct ranks reads back, through `getFavoritosPorSecao`, in exactly the old order. */
  lemma {:induction false} ArrastoNaMesmaSecaoVolta(favoritos: seq<Favorito>, sec: Id, a: nat, o: nat)
    requires a < |FavoritosPorSecao(favoritos, sec)| && o < |FavoritosPorSecao(favoritos, sec)|
    requires forall k :: |Filter(OfSection(favoritos, sec), HasRank(k))| <= 1
    ensures FavoritosPorSecao(ArrayMove(FavoritosPorSecao(favoritos, sec), a, o), sec) == FavoritosPorSecao(favoritos, sec)
  {
    var secao := OfSection(favoritos, sec);
    var lista := FavoritosPorSecao(favoritos, sec);
    var r := ArrayMove(lista, a, o);
    FavoritosPorSecaoSpec(favoritos, sec);
    ArrayMovePermutation(lista, a, o);
    assert multiset(r) == multiset(secao);
    forall i | 0 <= i < |r| ensures InSecao(sec)(r[i]) {
      assert r[i] in multiset(secao);
      FilterMembers(favoritos, InSecao(sec));
    }
    FilterKeepsAll(r, InSecao(sec));
    assert FavoritosPorSecao(r, sec) == SortByOrdem(r);
    SortSorted(r);
    forall k ensures Filter(SortByOrdem(r), HasRank(k)) == Filter(lista, HasRank(k)) {
      SortStable(r, k);
      SortStable(secao, k);
      FilterPermutation(r, secao, HasRank(k));
      ShortSeqsEqual(Filter(secao, HasRank(k)), Filter(r, HasRank(k)));
    }
    SortedUnique(SortByOrdem(r), lista);
  }

  // Two small boards used to exhibit the behaviour on concrete data.

  const F1: Favorito := Favorito("f1", "Docs", "docs.example", "s1", 0, "")
  const F2: Favorito := Favorito("f2", "Mail", "mail.example", "s2", 0, "")
  const F3: Favorito := Favorito("f3", "Maps", "maps.example", "s2", 1, "")

  const G1: Favorito := Favorito("g1", "Docs", "docs.example", "s1", 0, "")
  const G2: Favorito := Favorito("g2", "Mail", "mail.example", "s1", 1, "")
  const G3: Favorito := Favorito("g3", "Maps", "maps.example", "s2", 0, "")

  lemma ExemploBuscasF()
    ensures FindFavorito([F1, F2, F3], "f2") == Some(F2)
    ensures FindFavorito([F1, F2, F3], "f3") == Some(F3)
  {
    assert [F1, F2, F3][1..] == [F2, F3] && [F2, F3][1..] == [F3];
    assert FindIndex([F2, F3], TemId("f2")) == 0;
    assert FindIndex([F3], TemId("f3")) == 0;
    assert FindIndex([F2, F3], TemId("f3")) == 1;
  }

  lemma ExemploListasF()
    ensures FavoritosPorSecao([F1, F2, F3], "s2") == [F2, F3]
    ensures FavoritosPorSecao([F3, F2], "s2") == [F2, F3]
  {
    assert [F1, F2, F3][1..] == [F2, F3] && [F2, F3][1..] == [F3] && [F3][1..] == [];
    assert [F3, F2][1..] == [F2] && [F2][1..] == [];
    assert Filter([F3], InSecao("s2")) == [F3];
    assert Filter([F2, F3], InSecao("s2")) == [F2, F3];
    assert Filter([F2], InSecao("s2")) == [F2];
    assert OfSection([F3, F2], "s2") == [F3, F2];
    assert SortByOrdem([F3]) == [F3];
    assert SortByOrdem([F2]) == [F2];
  }

  lemma ExemploMovimentoF()
    ensures FindIndex([F2, F3], TemId("f2")) == 0 && FindIndex([F2, F3], TemId("f3")) == 1
    ensures ArrayMove([F2, F3], 0, 1) == [F3, F2]
  {
    assert [F2, F3][1..] == [F3];
  }

  /** One board, one drop: section s1 holds F1, section s2 holds F2 and F3; dragging F2 onto F3
      sends [F3, F2], which the store takes as its whole local list, so F1 is lost from it. */
  lemma ExemploArrastoNaMesmaSecao()
    ensures PlanoFavorito(FavoritosFiltrados([F1, F2, F3], ""), [F1, F2, F3], "f2", "f3") == Some([F3, F2])
    ensures F1 !in [F3, F2]
  {
    var favoritos := [F1, F2, F3];
    assert FavoritosFiltrados(favoritos, "") == favoritos;
    ExemploPlanoF();
  }

  lemma ExemploPlanoF()
    ensures PlanoFavorito([F1, F2, F3], [F1, F2, F3], "f2", "f3") == Some([F3, F2])
  {
    ExemploBuscasF();
    ExemploListasF();
    ExemploMovimentoF();
  }

  /** After that drop section s2 still reads back as [F2, F3], the order from before the drop.
      On a board with s2 alone the same drop keeps the list's length, and sends [F3, F2]. */
  lemma ExemploLeituraVolta()
    ensures FavoritosPorSecao([F3, F2], "s2") == FavoritosPorSecao([F1, F2, F3], "s2") == [F2, F3]
    ensures PlanoFavorito(FavoritosFiltrados([F2, F3], ""), [F2, F3], "f2", "f3") == Some([F3, F2])
    ensures FavoritosPorSecao([F2, F3], "s2") == FavoritosPorSecao([F3, F2], "s2") == [F2, F3]
  {
    ExemploListasF();
    ExemploPlanoUmaSecao();
  }

  lemma ExemploPlanoUmaSecao()
    ensures PlanoFavorito(FavoritosFiltrados([F2, F3], ""), [F2, F3], "f2", "f3") == Some([F3, F2])
    ensures FavoritosPorSecao([F2, F3], "s2") == [F2, F3]
  {
    var favoritos := [F2, F3];
    assert FavoritosFiltrados(favoritos, "") == favoritos;
    assert favoritos[1..] == [F3];
    assert FindIndex(favoritos, TemId("f2")) == 0;
    assert FindIndex([F3], TemId("f3")) == 0;
    assert FindIndex(favoritos, TemId("f3")) == 1;
    assert Filter([F3], InSecao("s2")) == [F3];
    assert Filter(favoritos, InSecao("s2")) == favoritos;
    assert SortByOrdem([F3]) == [F3];
    ExemploMovimentoF();
  }

  lemma ExemploBuscasG()
    ensures FindFavorito([G1, G2, G3], "g1") == Some(G1)
    ensures FindFavorito([G1, G2, G3], "g3") == Some(G3)
  {
    assert [G1, G2, G3][1..] == [G2, G3] && [G2, G3][1..] == [G3];
    assert FindIndex([G3], TemId("g3")) == 0;
    assert FindIndex([G2, G3], TemId("g3")) == 1;
  }

  lemma ExemploListasG()
    ensures Origem([G1, G2, G3], G1) == [G2]
    ensures Resto([G1, G2, G3], G1, G3) == [G3]
  {
    ExemploOrigemG();
    ExemploRestoG();
  }

  lemma ExemploOrigemG()
    ensures Origem([G1, G2, G3], G1) == [G2]
  {
    assert [G1, G2, G3][1..] == [G2, G3] && [G2, G3][1..] == [G3] && [G3][1..] == [];
    assert [G1, G2][1..] == [G2] && [G2][1..] == [];
    assert Filter([G3], InSecao("s1")) == [];
    assert Filter([G2, G3], InSecao("s1")) == [G2];
    assert SortByOrdem([G2]) == [G2];
    assert SortByOrdem([G1, G2]) == [G1, G2];
    assert Filter([G2], SemId("g1")) == [G2];
  }

  lemma ExemploRestoG()
    ensures Resto([G1, G2, G3], G1, G3) == [G3]
  {
    assert [G1, G2, G3][1..] == [G2, G3] && [G2, G3][1..] == [G3] && [G3][1..] == [];
    assert Filter([G3], InSecao("s2")) == [G3];
    assert Filter([G2, G3], InSecao("s2")) == [G3];
    assert SortByOrdem([G3]) == [G3];
    assert Filter([G3], SemId("g1")) == [G3];
  }

  /** The cross-section drop of the board S1 = [G1, G2], S2 = [G3]: dropping G1 on G3 sends
      [G2, G1 retagged to S2, G3]. */
  lemma ExemploEntreSecoes()
    ensures PlanoFavorito(FavoritosFiltrados([G1, G2, G3], ""), [G1, G2, G3], "g1", "g3") == Some([G2, G1.(secaoId := "s2"), G3])
  {
    var favoritos := [G1, G2, G3];
    assert FavoritosFiltrados(favoritos, "") == favoritos;
    ExemploPlanoG();
  }

  lemma ExemploPlanoG()
    ensures PlanoFavorito([G1, G2, G3], [G1, G2, G3], "g1", "g3") == Some([G2, G1.(secaoId := "s2"), G3])
  {
    var favoritos := [G1, G2, G3];
    ExemploBuscasG();
    ExemploMoverG();
    assert PlanoFavorito(favoritos, favoritos, "g1", "g3") == Some(MoverEntreSecoes(favoritos, G1, G3));
  }

  lemma ExemploMoverG()
    ensures MoverEntreSecoes([G1, G2, G3], G1, G3) == [G2, G1.(secaoId := "s2"), G3]
  {
    var favoritos := [G1, G2, G3];
    ExemploListasG();
    assert Filter(FavoritosPorSecao(favoritos, "s1"), SemId("g1")) == [G2];
    assert Filter(FavoritosPorSecao(favoritos, "s2"), SemId("g1")) == [G3];
    assert FindIndex([G3], TemId("g3")) == 0;
    assert InsertAt([G3], 0, G1.(secaoId := "s2")) == [G1.(secaoId := "s2"), G3];
  }

  // ---------------------------------------------------------------------------------------------
  // The local list the reorder evidently means to leave

  /** Nothing unsent is lost, and nothing appears that was neither sent nor there before. */
  lemma ReconciliarMantem(favoritos: seq<Favorito>, xs: seq<Favorito>)
    ensures forall f :: f in favoritos && f.id !in IdsOf(xs) ==> f in Reconciliar(favoritos, xs)
    ensures forall f :: f in Reconciliar(favoritos, xs) ==> f.id in IdsOf(xs) || f in favoritos
    ensures IdSeq(Reconciliar(favoritos, xs))[..|xs|] == IdSeq(xs)
  {
    FilterMembers(favoritos, ForaDe(IdsOf(xs)));
    var r := Reconciliar(favoritos, xs);
    forall f | f in r ensures f.id in IdsOf(xs) || f in favoritos {
      var i :| 0 <= i < |r| && r[i] == f;
      if i < |xs| {
        assert r[i] == Persisted(xs)[i];
      } else {
        assert r[i] in Filter(favoritos, ForaDe(IdsOf(xs)));
      }
    }
  }

  /** A section all of whose favorites were sent reads back in the order they were sent. */
  lemma ReconciliarMostraOrdem(favoritos: seq<Favorito>, xs: seq<Favorito>, s: Id)
    requires forall f :: f in favoritos && f.secaoId == s ==> f.id in IdsOf(xs)
    ensures IdSeq(FavoritosPorSecao(Reconciliar(favoritos, xs), s)) == IdSeq(OfSection(xs, s))
  {
    var kept := Filter(favoritos, ForaDe(IdsOf(xs)));
    FilterMembers(favoritos, ForaDe(IdsOf(xs)));
    forall i | 0 <= i < |kept| ensures !InSecao(s)(kept[i]) {
      assert kept[i] in kept;
    }
    FilterDropsAll(kept, InSecao(s));
    FilterAppend(Persisted(xs), kept, InSecao(s));
    assert OfSection(Reconciliar(favoritos, xs), s) == OfSection(Persisted(xs), s);
    PersistedSectionOrder(xs, s);
  }

  /** With the reconciled list, a drop keeps every favorite of the other sections, and both
      sections it touches read back in the order the drop produced. */
  lemma ReconciliarAposSoltar(todos: seq<Favorito>, favoritos: seq<Favorito>, activeId: Id, overId: Id)
    requires UniqueIds(favoritos)
    requires FindFavorito(todos, activeId).Some? && FindFavorito(todos, overId).Some?
    requires PlanoFavorito(todos, favoritos, activeId, overId).Some?
    ensures var src := FindFavorito(todos, activeId).value.secaoId;
      var dst := FindFavorito(todos, overId).value.secaoId;
      var r := PlanoFavorito(todos, favoritos, activeId, overId).value;
      && (forall f :: f in favoritos && f.secaoId != src && f.secaoId != dst && f.id != activeId ==>
            f in Reconciliar(favoritos, r))
      && IdSeq(FavoritosPorSecao(Reconciliar(favoritos, r), src)) == IdSeq(OfSection(r, src))
      && IdSeq(FavoritosPorSecao(Reconciliar(favoritos, r), dst)) == IdSeq(OfSection(r, dst))
  {
    var arr, des := FindFavorito(todos, activeId).value, FindFavorito(todos, overId).value;
    var src, dst := arr.secaoId, des.secaoId;
    var r := PlanoFavorito(todos, favoritos, activeId, overId).value;
    if src == dst {
      PlanoElementosMesma(todos, favoritos, activeId, overId);
    } else {
      PlanoElementosEntre(favoritos, arr, des);
    }
    ReconciliarMantem(favoritos, r);
    forall f | f in favoritos && f.secaoId != src && f.secaoId != dst && f.id != activeId
      ensures f.id !in IdsOf(r)
    {
      var j :| 0 <= j < |favoritos| && favoritos[j] == f;
      forall i | 0 <= i < |r| ensures r[i].id != f.id {
        if r[i] in favoritos {
          var k :| 0 <= k < |favoritos| && favoritos[k] == r[i];
          assert j != k;
        }
      }
    }
    ReconciliarMostraOrdem(favoritos, r, src);
    ReconciliarMostraOrdem(favoritos, r, dst);
  }
}
