/** The board (`ListaFavoritos`): the drag-and-drop state machine over `secaoAtiva`,
    `favoritoAtivo` and `dropTarget`, the reorder each completed drop requests from the store, and
    the grouped view shown while a search term is set. The `over` element is an input: which
    element lies under the cursor is decided by the drag library. */
module ListaFavoritos {
  import opened Seqs
  import opened Records
  import opened Ordering
  import opened Toasts
  import opened Supabase
  import opened FavoritosContext
  import opened Sortable

  /** The predicate `f => f.id === id`. */
  function TemId(id: Id): Favorito -> bool
  {
    (f: Favorito) => f.id == id
  }

  /** The predicate `f => f.id !== id`. */
  function SemId(id: Id): Favorito -> bool
  {
    (f: Favorito) => f.id != id
  }

  /** The predicate `secao => secao.id === id`. */
  function SecaoTemId(id: Id): Secao -> bool
  {
    (s: Secao) => s.id == id
  }

  /** `favoritos.find(f => f.id === id)`. */
  function FindFavorito(fs: seq<Favorito>, id: Id): (r: Option<Favorito>)
    ensures r.Some? ==> r.value in fs && r.value.id == id
    ensures r.None? <==> forall i :: 0 <= i < |fs| ==> fs[i].id != id
  {
    var i := FindIndex(fs, TemId(id));
    if i == -1 then None else Some(fs[i])
  }

  // ---------------------------------------------------------------------------------------------
  // What a completed drop asks of the store

  /** The section reorder a drop requests while a section is dragged, if any. */
  function PlanoSecao(secoes: seq<Secao>, activeId: Id, overId: Id): Option<seq<Secao>>
  {
    if activeId == overId then None
    else
      var a := FindIndex(secoes, SecaoTemId(activeId));
      var o := FindIndex(secoes, SecaoTemId(overId));
      if a == -1 || o == -1 then None else Some(ArrayMove(secoes, a, o))
  }

  /** A section drop reorders exactly when the two ids differ and both name sections; the new order
      is then a permutation of the sections with the dragged one at the target's index, the others
      in their old relative order, and moving it back restores the old order. */
  lemma PlanoSecaoSpec(secoes: seq<Secao>, activeId: Id, overId: Id)
    ensures PlanoSecao(secoes, activeId, overId).Some? <==>
      activeId != overId
      && (exists i :: 0 <= i < |secoes| && secoes[i].id == activeId)
      && (exists i :: 0 <= i < |secoes| && secoes[i].id == overId)
    ensures PlanoSecao(secoes, activeId, overId).Some? ==>
      var r := PlanoSecao(secoes, activeId, overId).value;
      var a := FindIndex(secoes, SecaoTemId(activeId));
      var o := FindIndex(secoes, SecaoTemId(overId));
      && multiset(r) == multiset(secoes)
      && r[o] == secoes[a] && r[o].id == activeId
      && Remove(r, o) == Remove(secoes, a)
      && ArrayMove(r, o, a) == secoes
  {
    var a := FindIndex(secoes, SecaoTemId(activeId));
    var o := FindIndex(secoes, SecaoTemId(overId));
    if a != -1 && o != -1 {
      ArrayMoveSpec(secoes, a, o);
      ArrayMovePermutation(secoes, a, o);
      ArrayMoveInverse(secoes, a, o);
    }
    if a == -1 {
      assert forall j :: 0 <= j < |secoes| ==> !SecaoTemId(activeId)(secoes[j]);
    }
    if o == -1 {
      assert forall j :: 0 <= j < |secoes| ==> !SecaoTemId(overId)(secoes[j]);
    }
  }

  /** The list a cross-section drop sends: the source section without the dragged favorite,
      followed by the destination section with the dragged favorite, retagged, spliced in before
      the target (or at the front when the target is not found). */
  function MoverEntreSecoes(favoritos: seq<Favorito>, arrastado: Favorito, destino: Favorito): seq<Favorito>
  {
    var origem := Origem(favoritos, arrastado);
    var resto := Resto(favoritos, arrastado, destino);
    var pos := FindIndex(resto, TemId(destino.id));
    origem + InsertAt(resto, if pos >= 0 then pos else 0, arrastado.(secaoId := destino.secaoId))
  }

  /** The favorite reorder a drop requests while a favorite is dragged, if any. `todos` is the list
      the context exports and `favoritos` the store's own list, which `getFavoritosPorSecao` reads. */
  function PlanoFavorito(todos: seq<Favorito>, favoritos: seq<Favorito>, activeId: Id, overId: Id): Option<seq<Favorito>>
  {
    var arrastado := FindFavorito(todos, activeId);
    var destino := FindFavorito(todos, overId);
    if arrastado.None? || destino.None? then None
    else if arrastado.value.secaoId == destino.value.secaoId then
      var lista := FavoritosPorSecao(favoritos, arrastado.value.secaoId);
      var a := FindIndex(lista, TemId(activeId));
      var o := FindIndex(lista, TemId(overId));
      if a == -1 || o == -1 then None else Some(ArrayMove(lista, a, o))
    else Some(MoverEntreSecoes(favoritos, arrastado.value, destino.value))
  }

  /** A favorite drop requests nothing unless both the dragged and the target id are favorites;
      with no search term active (the only time the board can be dragged) that is also enough. */
  lemma PlanoFavoritoQuando(favoritos: seq<Favorito>, activeId: Id, overId: Id)
    ensures forall todos :: PlanoFavorito(todos, favoritos, activeId, overId).Some? ==>
      FindFavorito(todos, activeId).Some? && FindFavorito(todos, overId).Some?
    ensures PlanoFavorito(FavoritosFiltrados(favoritos, ""), favoritos, activeId, overId).Some? <==>
      (exists i :: 0 <= i < |favoritos| && favoritos[i].id == activeId)
      && (exists i :: 0 <= i < |favoritos| && favoritos[i].id == overId)
  {
    assert FavoritosFiltrados(favoritos, "") == favoritos;
    var arr, des := FindFavorito(favoritos, activeId), FindFavorito(favoritos, overId);
    if arr.Some? && des.Some? && arr.value.secaoId == des.value.secaoId {
      NaPropriaSecao(favoritos, arr.value);
      NaPropriaSecao(favoritos, des.value);
    }
  }

  /** A favorite of the store is found by id in its own section's list. */
  lemma NaPropriaSecao(favoritos: seq<Favorito>, f: Favorito)
    requires f in favoritos
    ensures FindIndex(FavoritosPorSecao(favoritos, f.secaoId), TemId(f.id)) != -1
  {
    var lista := FavoritosPorSecao(favoritos, f.secaoId);
    PorSecaoMembros(favoritos, f.secaoId);
    assert f in lista;
    var i :| 0 <= i < |lista| && lista[i] == f;
    assert TemId(f.id)(lista[i]);
  }

  /** A drop inside one section sends a rearrangement of exactly that section's favorites, with the
      dragged favorite at the target's position, and nothing from any other section. */
  lemma PlanoMesmaSecao(todos: seq<Favorito>, favoritos: seq<Favorito>, activeId: Id, overId: Id)
    requires FindFavorito(todos, activeId).Some? && FindFavorito(todos, overId).Some?
    requires FindFavorito(todos, activeId).value.secaoId == FindFavorito(todos, overId).value.secaoId
    requires PlanoFavorito(todos, favoritos, activeId, overId).Some?
    ensures var sec := FindFavorito(todos, activeId).value.secaoId;
      var r := PlanoFavorito(todos, favoritos, activeId, overId).value;
      && multiset(r) == multiset(OfSection(favoritos, sec))
      && (forall i :: 0 <= i < |r| ==> r[i].secaoId == sec)
      && r[FindIndex(FavoritosPorSecao(favoritos, sec), TemId(overId))].id == activeId
  {
    var sec := FindFavorito(todos, activeId).value.secaoId;
    var lista := FavoritosPorSecao(favoritos, sec);
    var a := FindIndex(lista, TemId(activeId));
    var o := FindIndex(lista, TemId(overId));
    var r := ArrayMove(lista, a, o);
    FavoritosPorSecaoSpec(favoritos, sec);
    ArrayMovePermutation(lista, a, o);
    ArrayMoveSpec(lista, a, o);
    forall i | 0 <= i < |r| ensures r[i].secaoId == sec {
      assert r[i] in multiset(lista);
    }
  }

  /** The source part of a cross-section drop: the source section, rank-sorted, without the dragged favorite. */
  function Origem(favoritos: seq<Favorito>, arrastado: Favorito): seq<Favorito>
  {
    Filter(FavoritosPorSecao(favoritos, arrastado.secaoId), SemId(arrastado.id))
  }

  /** The destination section, rank-sorted, without the dragged favorite, before the splice. */
  function Resto(favoritos: seq<Favorito>, arrastado: Favorito, destino: Favorito): seq<Favorito>
  {
    Filter(FavoritosPorSecao(favoritos, destino.secaoId), SemId(arrastado.id))
  }

  /** The shape of a cross-section drop: the source part first, then the destination part with the
      retagged favorite spliced in immediately before the target. */
  lemma MoverEntreSecoesForma(favoritos: seq<Favorito>, arrastado: Favorito, destino: Favorito)
    ensures var origem, resto := Origem(favoritos, arrastado), Resto(favoritos, arrastado, destino);
      var r := MoverEntreSecoes(favoritos, arrastado, destino);
      && |r| == |origem| + |resto| + 1
      && r[..|origem|] == origem
      && (destino in favoritos && destino.id != arrastado.id ==>
            var p := FindIndex(resto, TemId(destino.id));
            && 0 <= p && |origem| + p + 1 < |r|
            && r[|origem| + p] == arrastado.(secaoId := destino.secaoId)
            && r[|origem| + p + 1].id == destino.id)
  {
    var origem, resto := Origem(favoritos, arrastado), Resto(favoritos, arrastado, destino);
    var pos := FindIndex(resto, TemId(destino.id));
    var p := if pos >= 0 then pos else 0;
    var ins := InsertAt(resto, p, arrastado.(secaoId := destino.secaoId));
    assert MoverEntreSecoes(favoritos, arrastado, destino) == origem + ins;
    if destino in favoritos && destino.id != arrastado.id {
      DestinoNoResto(favoritos, arrastado, destino);
      assert ins[p + 1] == resto[p];
    }
  }

  /** The target of a cross-section drop is found in the destination part. */
  lemma DestinoNoResto(favoritos: seq<Favorito>, arrastado: Favorito, destino: Favorito)
    requires destino in favoritos && destino.id != arrastado.id
    ensures FindIndex(Resto(favoritos, arrastado, destino), TemId(destino.id)) >= 0
  {
    var ld := FavoritosPorSecao(favoritos, destino.secaoId);
    var resto := Resto(favoritos, arrastado, destino);
    PorSecaoMembros(favoritos, destino.secaoId);
    FilterMembers(ld, SemId(arrastado.id));
    assert destino in resto;
    var j :| 0 <= j < |resto| && resto[j] == destino;
    assert TemId(destino.id)(resto[j]);
  }

  /** How often each favorite occurs in a cross-section drop: every favorite other than the dragged
      one occurs as often as in the store if it belongs to the source or the destination section,
      and not at all if it belongs to any third section. */
  lemma MoverEntreSecoesContagem(favoritos: seq<Favorito>, arrastado: Favorito, destino: Favorito)
    requires arrastado.secaoId != destino.secaoId
    ensures forall f: Favorito :: f.id != arrastado.id ==>
      multiset(MoverEntreSecoes(favoritos, arrastado, destino))[f] ==
        if f.secaoId == arrastado.secaoId || f.secaoId == destino.secaoId then multiset(favoritos)[f] else 0
  {
    var src, dst := arrastado.secaoId, destino.secaoId;
    var origem, resto := Origem(favoritos, arrastado), Resto(favoritos, arrastado, destino);
    var movido := arrastado.(secaoId := dst);
    var pos := FindIndex(resto, TemId(destino.id));
    var p := if pos >= 0 then pos else 0;
    var r := MoverEntreSecoes(favoritos, arrastado, destino);
    assert r == origem + InsertAt(resto, p, movido);
    InsertMultiset(resto, p, movido);
    assert multiset(r) == multiset(origem) + multiset(resto) + multiset{movido};
    forall f: Favorito | f.id != arrastado.id
      ensures multiset(r)[f] == if f.secaoId == src || f.secaoId == dst then multiset(favoritos)[f] else 0
    {
      ContagemDasPartes(favoritos, arrastado, destino, f);
    }
  }

  /** One favorite other than the dragged one, counted in the source and the destination parts. */
  lemma ContagemDasPartes(favoritos: seq<Favorito>, arrastado: Favorito, destino: Favorito, f: Favorito)
    requires arrastado.secaoId != destino.secaoId && f.id != arrastado.id
    ensures multiset(Origem(favoritos, arrastado))[f] + multiset(Resto(favoritos, arrastado, destino))[f] ==
      if f.secaoId == arrastado.secaoId || f.secaoId == destino.secaoId then multiset(favoritos)[f] else 0
  {
    var src, dst := arrastado.secaoId, destino.secaoId;
    var ls, ld := FavoritosPorSecao(favoritos, src), FavoritosPorSecao(favoritos, dst);
    FilterCount(ls, SemId(arrastado.id), f);
    FilterCount(ld, SemId(arrastado.id), f);
    FilterCount(favoritos, InSecao(src), f);
    FilterCount(favoritos, InSecao(dst), f);
  }

  /** The queue after a drop that ran both halves: the section half announces first, then the
      favorite half with the next fresh id, each only when its upsert is rejected. */
  function ToastsDoArrasto(toasts: seq<Toast>, novoId: nat, secoesRejeitadas: bool, favoritosRejeitados: bool): seq<Toast>
  {
    var t1 := AposReordenar(toasts, novoId, secoesRejeitadas, ERRO_ORDEM_SECOES);
    AposReordenar(t1, novoId + |t1| - |toasts|, favoritosRejeitados, ERRO_ORDEM_FAVORITOS)
  }

  /** A drop with no rejection leaves the queue alone; when both upserts are rejected and neither
      message is queued yet, the section error comes first and the favorite error takes the next id. */
  lemma ToastsDoArrastoCasos(toasts: seq<Toast>, novoId: nat)
    ensures ToastsDoArrasto(toasts, novoId, false, false) == toasts
    ensures !HasMessage(toasts, ERRO_ORDEM_SECOES) && !HasMessage(toasts, ERRO_ORDEM_FAVORITOS) ==>
      ToastsDoArrasto(toasts, novoId, true, true) ==
        toasts + [Toast(novoId, ERROR, ERRO_ORDEM_SECOES), Toast(novoId + 1, ERROR, ERRO_ORDEM_FAVORITOS)]
  {
    if !HasMessage(toasts, ERRO_ORDEM_SECOES) && !HasMessage(toasts, ERRO_ORDEM_FAVORITOS) {
      var t1 := toasts + [Toast(novoId, ERROR, ERRO_ORDEM_SECOES)];
      assert ERRO_ORDEM_SECOES != ERRO_ORDEM_FAVORITOS by {
        assert ERRO_ORDEM_SECOES[25] != ERRO_ORDEM_FAVORITOS[25];
      }
      forall i | 0 <= i < |t1| ensures t1[i].message != ERRO_ORDEM_FAVORITOS {
        if i < |toasts| {
          assert t1[i] == toasts[i];
        }
      }
    }
  }

  // ---------------------------------------------------------------------------------------------
  // The drag state machine

  class DragController {
    var secaoAtiva: Option<Id>
    var favoritoAtivo: Option<Id>
    var dropTarget: Option<Id>

    constructor ()
      ensures secaoAtiva == None && favoritoAtivo == None && dropTarget == None
    {
      secaoAtiva, favoritoAtivo, dropTarget := None, None, None;
    }

    /** `handleDragStart`: a dragged element whose data type is "secao" is a section, anything
        else a favorite. */
    method DragStart(id: Id, tipo: string)
      modifies this
      ensures tipo == "secao" ==> secaoAtiva == Some(id) && favoritoAtivo == old(favoritoAtivo)
      ensures tipo != "secao" ==> favoritoAtivo == Some(id) && secaoAtiva == old(secaoAtiva)
      ensures dropTarget == old(dropTarget)
    {
      if tipo == "secao" {
        secaoAtiva := Some(id);
      } else {
        favoritoAtivo := Some(id);
      }
    }

    /** `handleDragOver`. */
    method DragOver(over: Option<Id>)
      modifies this
      ensures dropTarget == over
      ensures secaoAtiva == old(secaoAtiva) && favoritoAtivo == old(favoritoAtivo)
    {
      dropTarget := over;
    }

    /** The section half of `handleDragEnd`, over the sections `secoes` the handler saw. */
    method SoltarSecao(secoes: seq<Secao>, activeId: Id, overId: Id, store: Store, aceita: bool)
      requires store.Valid()
      modifies store
      ensures store.Valid()
      ensures var ps := PlanoSecao(secoes, activeId, overId);
        && store.secoes == (if ps.Some? then ps.value else old(store.secoes))
        && (ps.None? || aceita ==> store.toasts == old(store.toasts) && store.nextToastId == old(store.nextToastId))
        && (ps.Some? && !aceita ==>
              store.toasts == Announce(old(store.toasts), store.HasData(), ERROR, ERRO_ORDEM_SECOES, old(store.nextToastId)))
      ensures store.toasts == AposReordenar(old(store.toasts), old(store.nextToastId), PlanoSecao(secoes, activeId, overId).Some? && !aceita, ERRO_ORDEM_SECOES)
      ensures store.nextToastId == old(store.nextToastId) + |store.toasts| - |old(store.toasts)|
      ensures store.favoritos == old(store.favoritos)
      ensures store.secoesFechadas == old(store.secoesFechadas) && store.termoPesquisa == old(store.termoPesquisa)
    {
      if activeId != overId {
        var a := FindIndex(secoes, SecaoTemId(activeId));
        var o := FindIndex(secoes, SecaoTemId(overId));
        if a != -1 && o != -1 {
          var novaOrdem := ArrayMove(secoes, a, o);
          var _, _ := store.AtualizarOrdemSecoes(novaOrdem, aceita);
        }
      }
      AnnounceErro(old(store.toasts), false, store.HasData(), ERRO_ORDEM_SECOES, old(store.nextToastId));
    }

    /** The favorite half of `handleDragEnd`, over the exported list `todos` and the store's list
        `favoritos` the handler saw. */
    method SoltarFavorito(todos: seq<Favorito>, favoritos: seq<Favorito>, activeId: Id, overId: Id, store: Store, aceita: bool)
      requires store.Valid()
      modifies store
      ensures store.Valid()
      ensures var pf := PlanoFavorito(todos, favoritos, activeId, overId);
        && store.favoritos == (if pf.Some? then pf.value else old(store.favoritos))
        && (pf.None? || aceita ==> store.toasts == old(store.toasts) && store.nextToastId == old(store.nextToastId))
        && (pf.Some? && !aceita ==>
              store.toasts == Announce(old(store.toasts), store.HasData(), ERROR, ERRO_ORDEM_FAVORITOS, old(store.nextToastId)))
      ensures store.toasts == AposReordenar(old(store.toasts), old(store.nextToastId), PlanoFavorito(todos, favoritos, activeId, overId).Some? && !aceita, ERRO_ORDEM_FAVORITOS)
      ensures store.nextToastId == old(store.nextToastId) + |store.toasts| - |old(store.toasts)|
      ensures store.secoes == old(store.secoes)
      ensures store.secoesFechadas == old(store.secoesFechadas) && store.termoPesquisa == old(store.termoPesquisa)
    {
      var arrastado := FindFavorito(todos, activeId);
      var destino := FindFavorito(todos, overId);
      if arrastado.Some? && destino.Some? {
        if arrastado.value.secaoId == destino.value.secaoId {
          var lista := FavoritosPorSecao(favoritos, arrastado.value.secaoId);
          var a := FindIndex(lista, TemId(activeId));
          var o := FindIndex(lista, TemId(overId));
          if a != -1 && o != -1 {
            var novaOrdem := ArrayMove(lista, a, o);
            var _, _ := store.AtualizarOrdemFavoritos(novaOrdem, aceita);
          }
        } else {
          var origem := Filter(FavoritosPorSecao(favoritos, arrastado.value.secaoId), SemId(arrastado.value.id));
          var resto := Filter(FavoritosPorSecao(favoritos, destino.value.secaoId), SemId(arrastado.value.id));
          var pos := FindIndex(resto, TemId(destino.value.id));
          resto := InsertAt(resto, if pos >= 0 then pos else 0, arrastado.value.(secaoId := destino.value.secaoId));
          var _, _ := store.AtualizarOrdemFavoritos(origem + resto, aceita);
        }
      }
      AnnounceErro(old(store.toasts), false, store.HasData(), ERRO_ORDEM_FAVORITOS, old(store.nextToastId));
    }

    /** The section half's queue followed by the favorite half's. */
    static lemma ComporReordenar(t0: seq<Toast>, n0: nat, t1: seq<Toast>, n1: nat, t2: seq<Toast>, n2: nat,
                                 r1: bool, r2: bool)
      requires t1 == AposReordenar(t0, n0, r1, ERRO_ORDEM_SECOES) && n1 == n0 + |t1| - |t0|
      requires t2 == AposReordenar(t1, n1, r2, ERRO_ORDEM_FAVORITOS) && n2 == n1 + |t2| - |t1|
      ensures t2 == ToastsDoArrasto(t0, n0, r1, r2) && n2 == n0 + |t2| - |t0|
    {
    }

    /** `handleDragEnd`: a drop of element `activeId` over `over`. Both halves read the store as the
        handler's closure saw it, before the drop; `aceitaSecoes` and `aceitaFavoritos` are what
        the remote table does with the upserts the store sends. */
    method DragEnd(activeId: Id, over: Option<Id>, store: Store, aceitaSecoes: bool, aceitaFavoritos: bool)
      requires store.Valid()
      modifies this, store
      ensures store.Valid()
      ensures dropTarget == None && secaoAtiva == None && favoritoAtivo == None
      ensures over.None? ==>
        store.secoes == old(store.secoes) && store.favoritos == old(store.favoritos) && store.toasts == old(store.toasts)
      ensures over.Some? ==>
        var ps := if old(secaoAtiva).Some? then PlanoSecao(old(store.secoes), activeId, over.value) else None;
        var pf := if old(favoritoAtivo).Some?
          then PlanoFavorito(old(store.FavoritosVisiveis()), old(store.favoritos), activeId, over.value)
          else None;
        && store.secoes == (if ps.Some? then ps.value else old(store.secoes))
        && store.favoritos == (if pf.Some? then pf.value else old(store.favoritos))
        && store.toasts == ToastsDoArrasto(old(store.toasts), old(store.nextToastId),
             ps.Some? && !aceitaSecoes, pf.Some? && !aceitaFavoritos)
      ensures store.nextToastId == old(store.nextToastId) + |store.toasts| - |old(store.toasts)|
      ensures store.secoesFechadas == old(store.secoesFechadas) && store.termoPesquisa == old(store.termoPesquisa)
    {
      dropTarget := None;
      if over.None? {
        secaoAtiva := None;
        favoritoAtivo := None;
        return;
      }
      var secoes, todos, favoritos := store.secoes, store.FavoritosVisiveis(), store.favoritos;
      assert secoes == old(store.secoes) && favoritos == old(store.favoritos);
      assert todos == old(store.FavoritosVisiveis());
      ghost var ps := if secaoAtiva.Some? then PlanoSecao(secoes, activeId, over.value) else None;
      ghost var pf := if favoritoAtivo.Some? then PlanoFavorito(todos, favoritos, activeId, over.value) else None;
      assert ps == if old(secaoAtiva).Some? then PlanoSecao(old(store.secoes), activeId, over.value) else None;
      assert pf == if old(favoritoAtivo).Some?
        then PlanoFavorito(old(store.FavoritosVisiveis()), old(store.favoritos), activeId, over.value) else None;
      if secaoAtiva.Some? {
        SoltarSecao(secoes, activeId, over.value, store, aceitaSecoes);
        secaoAtiva := None;
      }
      ghost var t1, n1 := store.toasts, store.nextToastId;
      if favoritoAtivo.Some? {
        SoltarFavorito(todos, favoritos, activeId, over.value, store, aceitaFavoritos);
        favoritoAtivo := None;
      }
      ComporReordenar(old(store.toasts), old(store.nextToastId), t1, n1, store.toasts, store.nextToastId,
        ps.Some? && !aceitaSecoes, pf.Some? && !aceitaFavoritos);
    }
  }


  // ---------------------------------------------------------------------------------------------
  // The search view

  /** A section header with the matching favorites listed under it. */
  datatype Bloco = Bloco(secao: Secao, favoritos: seq<Favorito>)

  /** What the board shows: the draggable board, the "nothing found" message, or the groups. */
  datatype Projecao = Quadro | NadaEncontrado | Grupos(blocos: seq<Bloco>)

  /** The predicate `secao => filtrados.some(f => f.secao_id === secao.id)`. */
  function TemAlgum(filtrados: seq<Favorito>): Secao -> bool
  {
    (s: Secao) => exists i :: 0 <= i < |filtrados| && filtrados[i].secaoId == s.id
  }

  /** `secoesComFavoritos`. */
  function SecoesComFavoritos(secoes: seq<Secao>, filtrados: seq<Favorito>): seq<Secao>
  {
    Filter(secoes, TemAlgum(filtrados))
  }

  /** The block of one section: its header and `filtrados.filter(f => f.secao_id === secao.id)`. */
  function BlocoDe(secao: Secao, filtrados: seq<Favorito>): Bloco
  {
    Bloco(secao, Filter(filtrados, InSecao(secao.id)))
  }

  /** The board's rendering choice for a search term over the context's list `todos`. */
  function ProjecaoBusca(secoes: seq<Secao>, todos: seq<Favorito>, termo: string): Projecao
  {
    if termo == "" then Quadro
    else
      var filtrados := Filter(todos, Corresponde(termo));
      if filtrados == [] then NadaEncontrado
      else
        var com := SecoesComFavoritos(secoes, filtrados);
        Grupos(seq(|com|, i requires 0 <= i < |com| => BlocoDe(com[i], filtrados)))
  }

  /** With no term the draggable board is shown; with a term, the "not found" message exactly when
      nothing matches, and otherwise one block per section having a match, in section order. */
  lemma ProjecaoBuscaCasos(secoes: seq<Secao>, todos: seq<Favorito>, termo: string)
    ensures termo == "" <==> ProjecaoBusca(secoes, todos, termo) == Quadro
    ensures termo != "" ==>
      (Filter(todos, Corresponde(termo)) == [] <==> ProjecaoBusca(secoes, todos, termo) == NadaEncontrado)
    ensures ProjecaoBusca(secoes, todos, termo).Grupos? ==>
      var filtrados := Filter(todos, Corresponde(termo));
      var blocos := ProjecaoBusca(secoes, todos, termo).blocos;
      var com := SecoesComFavoritos(secoes, filtrados);
      |blocos| == |com| && forall i :: 0 <= i < |blocos| ==> blocos[i] == BlocoDe(com[i], filtrados)
  {
  }

  /** The sections shown are exactly those holding a matching favorite, in their board order. */
  lemma SecoesComFavoritosSpec(secoes: seq<Secao>, filtrados: seq<Favorito>)
    ensures Subsequence(SecoesComFavoritos(secoes, filtrados), secoes)
    ensures forall s :: s in SecoesComFavoritos(secoes, filtrados) <==>
      s in secoes && exists f :: f in filtrados && f.secaoId == s.id
  {
    FilterIsSubsequence(secoes, TemAlgum(filtrados));
    FilterMembers(secoes, TemAlgum(filtrados));
    forall s ensures TemAlgum(filtrados)(s) <==> exists f :: f in filtrados && f.secaoId == s.id {
      if exists f :: f in filtrados && f.secaoId == s.id {
        var f :| f in filtrados && f.secaoId == s.id;
        var k :| 0 <= k < |filtrados| && filtrados[k] == f;
      }
    }
  }

  /** A shown section's block lists exactly the matching favorites of that section, in the order
      of the search result, and is never empty. */
  lemma BlocoDeSpec(secao: Secao, filtrados: seq<Favorito>)
    requires exists f :: f in filtrados && f.secaoId == secao.id
    ensures BlocoDe(secao, filtrados).favoritos != []
    ensures forall f :: f in BlocoDe(secao, filtrados).favoritos <==> f in filtrados && f.secaoId == secao.id
    ensures Subsequence(BlocoDe(secao, filtrados).favoritos, filtrados)
  {
    FilterMembers(filtrados, InSecao(secao.id));
    FilterIsSubsequence(filtrados, InSecao(secao.id));
    var f :| f in filtrados && f.secaoId == secao.id;
    assert f in BlocoDe(secao, filtrados).favoritos;
  }

  /** The board filters the context's list, which is already the search result; filtering it again
      gives the same view as filtering the store's list once. */
  lemma ProjecaoSobreVisiveis(secoes: seq<Secao>, favoritos: seq<Favorito>, termo: string)
    ensures ProjecaoBusca(secoes, FavoritosFiltrados(favoritos, termo), termo) == ProjecaoBusca(secoes, favoritos, termo)
  {
    if termo != "" {
      FilterIdempotent(favoritos, Corresponde(termo));
    }
  }
}
