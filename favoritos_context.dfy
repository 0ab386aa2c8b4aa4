/** The favorites store (`FavoritosProvider`): sections, favorites, the toast queue, the collapsed
    flags and the search term, with the mutators and queries it hands to the components.
    Create, update and delete call the remote table first and change local state only when the
    call succeeds; the two reorder mutators replace local state first and never roll back. */
module FavoritosContext {
  import opened Seqs
  import opened Text
  import opened Records
  import opened Ordering
  import opened Toasts
  import opened Supabase

  const CARREGADOS: string := "Dados carregados com sucesso"
  const ERRO_CARREGAR: string := "Erro ao carregar dados"
  const SECAO_ADICIONADA: string := "Seção adicionada com sucesso"
  const ERRO_ADICIONAR_SECAO: string := "Erro ao adicionar seção"
  const SECAO_ATUALIZADA: string := "Seção atualizada com sucesso"
  const ERRO_ATUALIZAR_SECAO: string := "Erro ao atualizar seção"
  const SECAO_EXCLUIDA: string := "Seção excluída com sucesso"
  const ERRO_EXCLUIR_SECAO: string := "Erro ao excluir seção"
  const FAVORITO_ADICIONADO: string := "Favorito adicionado com sucesso"
  const ERRO_ADICIONAR_FAVORITO: string := "Erro ao adicionar favorito"
  const FAVORITO_ATUALIZADO: string := "Favorito atualizado com sucesso"
  const ERRO_ATUALIZAR_FAVORITO: string := "Erro ao atualizar favorito"
  const FAVORITO_EXCLUIDO: string := "Favorito excluído com sucesso"
  const ERRO_EXCLUIR_FAVORITO: string := "Erro ao excluir favorito"
  const ERRO_ORDEM_SECOES: string := "Erro ao atualizar ordem das seções"
  const ERRO_ORDEM_FAVORITOS: string := "Erro ao atualizar ordem dos favoritos"

  // ---------------------------------------------------------------------------------------------
  // The toast queue

  /** Some queued toast carries this message. */
  predicate HasMessage(toasts: seq<Toast>, mensagem: string)
  {
    exists i :: 0 <= i < |toasts| && toasts[i].message == mensagem
  }

  /** `adicionarToast(tipo, mensagem)` on a queue, where `hasData` says whether sections or
      favorites are already loaded and `novoId` is the id the uuid supply hands out next. */
  function Announce(toasts: seq<Toast>, hasData: bool, tipo: string, mensagem: string, novoId: nat): (r: seq<Toast>)
    ensures r == toasts || r == toasts + [Toast(novoId, tipo, mensagem)]
  {
    if HasMessage(toasts, mensagem) then toasts
    else if mensagem == CARREGADOS && tipo == SUCCESS && hasData then toasts
    else toasts + [Toast(novoId, tipo, mensagem)]
  }

  /** A notice is dropped when its text is already queued, or when it is the "data loaded" success
      notice and data was already there; otherwise exactly one toast with the fresh id is appended. */
  lemma AnnounceCases(toasts: seq<Toast>, hasData: bool, tipo: string, mensagem: string, novoId: nat)
    ensures HasMessage(toasts, mensagem) ==> Announce(toasts, hasData, tipo, mensagem, novoId) == toasts
    ensures mensagem == CARREGADOS && tipo == SUCCESS && hasData ==>
      Announce(toasts, hasData, tipo, mensagem, novoId) == toasts
    ensures !HasMessage(toasts, mensagem) && !(mensagem == CARREGADOS && tipo == SUCCESS && hasData) ==>
      Announce(toasts, hasData, tipo, mensagem, novoId) == toasts + [Toast(novoId, tipo, mensagem)]
  {
  }

  /** An error notice does not depend on whether data is loaded. */
  lemma AnnounceErro(toasts: seq<Toast>, h1: bool, h2: bool, mensagem: string, novoId: nat)
    ensures Announce(toasts, h1, ERROR, mensagem, novoId) == Announce(toasts, h2, ERROR, mensagem, novoId)
  {
  }

  /** The queue after a reorder: a rejected upsert announces its error message (an error notice
      does not depend on whether data is loaded, so `hasData` is immaterial here). */
  function AposReordenar(toasts: seq<Toast>, novoId: nat, rejeitado: bool, mensagem: string): seq<Toast>
  {
    if rejeitado then Announce(toasts, false, ERROR, mensagem, novoId) else toasts
  }

  /** Announcing the same text twice in a row queues it at most once, and a notice that gets through
      shows on screen as the newest visible toast. */
  lemma {:induction false} AnnounceTwice(toasts: seq<Toast>, hasData: bool, tipo: string, mensagem: string, n1: nat, n2: nat)
    ensures var once := Announce(toasts, hasData, tipo, mensagem, n1);
      Announce(once, hasData, tipo, mensagem, n2) == once
    ensures var once := Announce(toasts, hasData, tipo, mensagem, n1);
      once != toasts ==> Visible(once)[|Visible(once)| - 1] == Toast(n1, tipo, mensagem)
  {
    var once := Announce(toasts, hasData, tipo, mensagem, n1);
    if once != toasts {
      assert once[|toasts|].message == mensagem;
    }
  }

  /** The predicate `toast => toast.id !== id`. */
  function NotToast(id: nat): Toast -> bool
  {
    (t: Toast) => t.id != id
  }

  /** `removerToast(id)` on a queue. */
  function WithoutToast(toasts: seq<Toast>, id: nat): seq<Toast>
  {
    Filter(toasts, NotToast(id))
  }

  /** Removing a toast removes every toast with that id and keeps the others in order. */
  lemma WithoutToastSpec(toasts: seq<Toast>, id: nat)
    ensures forall t :: t in WithoutToast(toasts, id) <==> t in toasts && t.id != id
    ensures Subsequence(WithoutToast(toasts, id), toasts)
  {
    FilterMembers(toasts, NotToast(id));
    FilterIsSubsequence(toasts, NotToast(id));
  }

  /** Dismissing a toast that was just queued with a fresh id restores the queue. */
  lemma DismissAnnounced(toasts: seq<Toast>, hasData: bool, tipo: string, mensagem: string, novoId: nat)
    requires forall i :: 0 <= i < |toasts| ==> toasts[i].id < novoId
    ensures WithoutToast(Announce(toasts, hasData, tipo, mensagem, novoId), novoId) == toasts
  {
    FilterKeepsAll(toasts, NotToast(novoId));
    var once := Announce(toasts, hasData, tipo, mensagem, novoId);
    if once != toasts {
      FilterAppend(toasts, [Toast(novoId, tipo, mensagem)], NotToast(novoId));
    }
  }

  // ---------------------------------------------------------------------------------------------
  // Pure views of the collections

  /** `getFavoritosPorSecao(secaoId)`. */
  function FavoritosPorSecao(favoritos: seq<Favorito>, secaoId: Id): seq<Favorito>
  {
    SortByOrdem(OfSection(favoritos, secaoId))
  }

  /** It returns exactly the favorites of that section, in non-decreasing rank, and the sort is
      stable: favorites of equal rank keep their order in the store. */
  lemma FavoritosPorSecaoSpec(favoritos: seq<Favorito>, secaoId: Id)
    ensures Sorted(FavoritosPorSecao(favoritos, secaoId))
    ensures multiset(FavoritosPorSecao(favoritos, secaoId)) == multiset(OfSection(favoritos, secaoId))
    ensures forall f :: f in FavoritosPorSecao(favoritos, secaoId) <==> f in favoritos && f.secaoId == secaoId
    ensures forall k :: Filter(FavoritosPorSecao(favoritos, secaoId), HasRank(k)) == Filter(OfSection(favoritos, secaoId), HasRank(k))
  {
    var sec := OfSection(favoritos, secaoId);
    SortSorted(sec);
    PorSecaoMembros(favoritos, secaoId);
    forall k ensures Filter(FavoritosPorSecao(favoritos, secaoId), HasRank(k)) == Filter(sec, HasRank(k)) {
      SortStable(sec, k);
    }
  }

  /** A section's view holds exactly the favorites of that section. */
  lemma PorSecaoMembros(favoritos: seq<Favorito>, secaoId: Id)
    ensures forall f :: f in FavoritosPorSecao(favoritos, secaoId) <==> f in favoritos && f.secaoId == secaoId
  {
    var sec := OfSection(favoritos, secaoId);
    FilterMembers(favoritos, InSecao(secaoId));
    forall f ensures f in FavoritosPorSecao(favoritos, secaoId) <==> f in sec {
      assert f in multiset(FavoritosPorSecao(favoritos, secaoId)) <==> f in multiset(sec);
    }
  }

  /** The predicate of the search: the lowercased title or URL contains the lowercased term. */
  function Corresponde(termo: string): Favorito -> bool
  {
    (f: Favorito) => Includes(LowerStr(f.titulo), LowerStr(termo)) || Includes(LowerStr(f.url), LowerStr(termo))
  }

  /** `filtrarFavoritos()`: all favorites for an empty term, else the matching ones. */
  function FiltrarFavoritos(favoritos: seq<Favorito>, termo: string): seq<Favorito>
  {
    if termo == "" then favoritos else Filter(favoritos, Corresponde(termo))
  }

  /** The search keeps, in store order, exactly the favorites whose title or URL contains the term
      (ignoring case); an empty term keeps everything. */
  lemma FiltrarFavoritosSpec(favoritos: seq<Favorito>, termo: string)
    ensures termo == "" ==> FiltrarFavoritos(favoritos, termo) == favoritos
    ensures forall f :: f in FiltrarFavoritos(favoritos, termo) <==> f in favoritos && Corresponde(termo)(f)
    ensures Subsequence(FiltrarFavoritos(favoritos, termo), favoritos)
  {
    if termo == "" {
      forall f | f in favoritos ensures Corresponde(termo)(f) {
        IncludesEmpty(LowerStr(f.titulo));
      }
      FilterIsSubsequence(favoritos, Corresponde(termo));
      FilterKeepsAll(favoritos, Corresponde(termo));
    } else {
      FilterMembers(favoritos, Corresponde(termo));
      FilterIsSubsequence(favoritos, Corresponde(termo));
    }
  }

  /** `getFavoritosFiltrados()`, the `favoritos` the context hands to the components. */
  function FavoritosFiltrados(favoritos: seq<Favorito>, termo: string): seq<Favorito>
  {
    var filtrados := FiltrarFavoritos(favoritos, termo);
    if termo != "" then filtrados else favoritos
  }

  /** Both of its branches give what the search gives. */
  lemma FavoritosFiltradosIsSearch(favoritos: seq<Favorito>, termo: string)
    ensures FavoritosFiltrados(favoritos, termo) == FiltrarFavoritos(favoritos, termo)
  {
  }

  // ---------------------------------------------------------------------------------------------
  // What each mutator does to the collections

  /** `secoes.filter(secao => secao.id !== id)`. */
  function SemSecao(secoes: seq<Secao>, id: Id): seq<Secao>
  {
    Filter(secoes, (s: Secao) => s.id != id)
  }

  /** `favoritos.filter(favorito => favorito.secao_id !== id)`: the cascade of a section delete. */
  function SemFavoritosDaSecao(favoritos: seq<Favorito>, id: Id): seq<Favorito>
  {
    Filter(favoritos, (f: Favorito) => f.secaoId != id)
  }

  /** `favoritos.filter(favorito => favorito.id !== id)`. */
  function SemFavorito(favoritos: seq<Favorito>, id: Id): seq<Favorito>
  {
    Filter(favoritos, (f: Favorito) => f.id != id)
  }

  /** Deleting a section leaves no section with that id and no favorite pointing at it; every other
      section and favorite stays, in its relative order. */
  lemma ExcluirSecaoSpec(secoes: seq<Secao>, favoritos: seq<Favorito>, id: Id)
    ensures forall s :: s in SemSecao(secoes, id) <==> s in secoes && s.id != id
    ensures forall f :: f in SemFavoritosDaSecao(favoritos, id) <==> f in favoritos && f.secaoId != id
    ensures Subsequence(SemSecao(secoes, id), secoes)
    ensures Subsequence(SemFavoritosDaSecao(favoritos, id), favoritos)
  {
    FilterMembers(secoes, (s: Secao) => s.id != id);
    FilterMembers(favoritos, (f: Favorito) => f.secaoId != id);
    FilterIsSubsequence(secoes, (s: Secao) => s.id != id);
    FilterIsSubsequence(favoritos, (f: Favorito) => f.secaoId != id);
  }

  /** Every favorite belongs to a section that exists. */
  predicate SemOrfaos(secoes: seq<Secao>, favoritos: seq<Favorito>)
  {
    forall i :: 0 <= i < |favoritos| ==> exists j :: 0 <= j < |secoes| && secoes[j].id == favoritos[i].secaoId
  }

  /** The cascade never leaves a favorite pointing at the deleted section: if no favorite was
      orphaned before the delete, none is after it. */
  lemma ExcluirSecaoSemOrfaos(secoes: seq<Secao>, favoritos: seq<Favorito>, id: Id)
    requires SemOrfaos(secoes, favoritos)
    ensures SemOrfaos(SemSecao(secoes, id), SemFavoritosDaSecao(favoritos, id))
  {
    var ss, fs := SemSecao(secoes, id), SemFavoritosDaSecao(favoritos, id);
    ExcluirSecaoSpec(secoes, favoritos, id);
    forall i | 0 <= i < |fs| ensures exists j :: 0 <= j < |ss| && ss[j].id == fs[i].secaoId {
      assert fs[i] in fs;
      var k :| 0 <= k < |favoritos| && favoritos[k] == fs[i];
      var j :| 0 <= j < |secoes| && secoes[j].id == favoritos[k].secaoId;
      assert secoes[j] in ss;
      var j' :| 0 <= j' < |ss| && ss[j'] == secoes[j];
    }
  }

  /** Deleting a favorite removes every favorite with that id and keeps the rest in order. */
  lemma ExcluirFavoritoSpec(favoritos: seq<Favorito>, id: Id)
    ensures forall f :: f in SemFavorito(favoritos, id) <==> f in favoritos && f.id != id
    ensures Subsequence(SemFavorito(favoritos, id), favoritos)
  {
    FilterMembers(favoritos, (f: Favorito) => f.id != id);
    FilterIsSubsequence(favoritos, (f: Favorito) => f.id != id);
  }

  /** `xs.map(x => x.id === id ? { ...x, ...linha } : x)`, where `idDe` reads a record's id; the
      returned row holds every column, so the spread replaces the whole record. */
  function ComId<T>(xs: seq<T>, id: Id, linha: T, idDe: T -> Id): (r: seq<T>)
    ensures |r| == |xs|
    ensures forall i :: 0 <= i < |r| ==> r[i] == if idDe(xs[i]) == id then linha else xs[i]
  {
    seq(|xs|, i requires 0 <= i < |xs| => if idDe(xs[i]) == id then linha else xs[i])
  }

  /** The section update's `map`. */
  function ComSecao(secoes: seq<Secao>, id: Id, linha: Secao): seq<Secao>
  {
    ComId(secoes, id, linha, (s: Secao) => s.id)
  }

  /** The favorite update's `map`. */
  function ComFavorito(favoritos: seq<Favorito>, id: Id, linha: Favorito): seq<Favorito>
  {
    ComId(favoritos, id, linha, (f: Favorito) => f.id)
  }

  /** An update that keeps the id keeps the store's ids where they were, and repeating it changes nothing. */
  lemma AtualizarSpec(secoes: seq<Secao>, favoritos: seq<Favorito>, id: Id, s: Secao, f: Favorito)
    requires s.id == id && f.id == id
    ensures forall i :: 0 <= i < |secoes| ==> ComSecao(secoes, id, s)[i].id == secoes[i].id
    ensures IdSeq(ComFavorito(favoritos, id, f)) == IdSeq(favoritos)
    ensures ComSecao(ComSecao(secoes, id, s), id, s) == ComSecao(secoes, id, s)
    ensures ComFavorito(ComFavorito(favoritos, id, f), id, f) == ComFavorito(favoritos, id, f)
  {
  }

  /** The predicate "its id is not among `ids`". */
  function ForaDe(ids: set<Id>): Favorito -> bool
  {
    (f: Favorito) => f.id !in ids
  }

  /** The local list a favorite reorder evidently means to leave: the favorites sent, as the upsert
      writes them (rank = index, the sent `secao_id`), followed by every favorite that was not sent. */
  function Reconciliar(favoritos: seq<Favorito>, xs: seq<Favorito>): seq<Favorito>
  {
    Persisted(xs) + Filter(favoritos, ForaDe(IdsOf(xs)))
  }

  /** Whether section `id` is collapsed: `secoesFechadas[id]`, with a missing entry falsy. */
  function Fechada(m: map<Id, bool>, id: Id): bool
  {
    id in m && m[id]
  }

  /** `{ ...prevState, [id]: !prevState[id] }`. */
  function Alternada(m: map<Id, bool>, id: Id): map<Id, bool>
  {
    m[id := !Fechada(m, id)]
  }

  /** Toggling flips section `id` only, and toggling twice restores every section's state (and the
      map itself once `id` has an entry). */
  lemma AlternarSecaoSpec(m: map<Id, bool>, id: Id)
    ensures Fechada(Alternada(m, id), id) == !Fechada(m, id)
    ensures forall x :: x != id ==> (x in Alternada(m, id) <==> x in m)
    ensures forall x :: x != id && x in m ==> Alternada(m, id)[x] == m[x]
    ensures forall x :: Fechada(Alternada(Alternada(m, id), id), x) == Fechada(m, x)
    ensures id in m ==> Alternada(Alternada(m, id), id) == m
  {
  }

  // ---------------------------------------------------------------------------------------------
  // The provider's state

  class Store {
    var secoes: seq<Secao>
    var favoritos: seq<Favorito>
    var secoesFechadas: map<Id, bool>
    var termoPesquisa: string
    var toasts: seq<Toast>
    /** The uuid supply for toasts: every id it hands out is above all queued ones. */
    var nextToastId: nat

    ghost predicate Valid()
      reads this
    {
      forall i :: 0 <= i < |toasts| ==> toasts[i].id < nextToastId
    }

    /** The state `useState` starts from. */
    constructor ()
      ensures Valid()
      ensures secoes == [] && favoritos == [] && secoesFechadas == map[] && termoPesquisa == "" && toasts == []
    {
      secoes, favoritos, secoesFechadas, termoPesquisa, toasts, nextToastId := [], [], map[], "", [], 0;
    }

    /** Sections or favorites are present. */
    function HasData(): bool
      reads this
    {
      secoes != [] || favoritos != []
    }

    /** The `favoritos` value the context exports: the search result while a term is set. */
    function FavoritosVisiveis(): seq<Favorito>
      reads this
    {
      FavoritosFiltrados(favoritos, termoPesquisa)
    }

    /** `adicionarToast` as run by a closure that saw `hasData`. */
    method Notify(tipo: string, mensagem: string, hasData: bool)
      requires Valid()
      modifies this
      ensures Valid()
      ensures toasts == Announce(old(toasts), hasData, tipo, mensagem, old(nextToastId))
      ensures nextToastId == if toasts == old(toasts) then old(nextToastId) else old(nextToastId) + 1
      ensures secoes == old(secoes) && favoritos == old(favoritos)
      ensures secoesFechadas == old(secoesFechadas) && termoPesquisa == old(termoPesquisa)
    {
      if HasMessage(toasts, mensagem) {
        return;
      }
      if mensagem == CARREGADOS && tipo == SUCCESS && hasData {
        return;
      }
      toasts := toasts + [Toast(nextToastId, tipo, mensagem)];
      nextToastId := nextToastId + 1;
    }

    /** `adicionarToast(tipo, mensagem)`. */
    method AdicionarToast(tipo: string, mensagem: string)
      requires Valid()
      modifies this
      ensures Valid()
      ensures toasts == Announce(old(toasts), old(HasData()), tipo, mensagem, old(nextToastId))
      ensures nextToastId == if toasts == old(toasts) then old(nextToastId) else old(nextToastId) + 1
      ensures secoes == old(secoes) && favoritos == old(favoritos)
      ensures secoesFechadas == old(secoesFechadas) && termoPesquisa == old(termoPesquisa)
    {
      Notify(tipo, mensagem, HasData());
    }

    /** `removerToast(id)`. */
    method RemoverToast(id: nat)
      requires Valid()
      modifies this
      ensures Valid()
      ensures toasts == WithoutToast(old(toasts), id)
      ensures nextToastId == old(nextToastId)
      ensures secoes == old(secoes) && favoritos == old(favoritos)
      ensures secoesFechadas == old(secoesFechadas) && termoPesquisa == old(termoPesquisa)
    {
      toasts := WithoutToast(toasts, id);
      forall i | 0 <= i < |toasts| ensures toasts[i].id < nextToastId {
        FilterMembers(old(toasts), NotToast(id));
        assert toasts[i] in old(toasts);
      }
    }

    /** `carregarDados()` once both reads have resolved (they return [] instead of failing). The
        success notice is raised by the closure that saw the data from before this load. */
    method CarregarDados(secoesLidas: seq<Secao>, favoritosLidos: seq<Favorito>)
      requires Valid()
      modifies this
      ensures Valid()
      ensures nextToastId == if toasts == old(toasts) then old(nextToastId) else old(nextToastId) + 1
      ensures secoes == secoesLidas && favoritos == favoritosLidos
      ensures toasts == Announce(old(toasts), old(HasData()), SUCCESS, CARREGADOS, old(nextToastId))
      ensures secoesFechadas == old(secoesFechadas) && termoPesquisa == old(termoPesquisa)
    {
      var hadData := HasData();
      secoes := secoesLidas;
      favoritos := favoritosLidos;
      Notify(SUCCESS, CARREGADOS, hadData);
    }

    /** `setTermoPesquisa(termo)`. */
    method SetTermoPesquisa(termo: string)
      modifies this
      ensures termoPesquisa == termo
      ensures secoes == old(secoes) && favoritos == old(favoritos) && toasts == old(toasts)
      ensures secoesFechadas == old(secoesFechadas) && nextToastId == old(nextToastId)
    {
      termoPesquisa := termo;
    }

    /** `adicionarSecao(novaSecao)`: sends the fields with `ordem` = the number of sections and,
        only if the table stores it, appends the stored row. */
    method AdicionarSecao(nova: NovaSecao, remote: Remote<Secao>) returns (ordem: int, r: Reply<Secao>)
      requires Valid()
      modifies this
      ensures Valid()
      ensures nextToastId == if toasts == old(toasts) then old(nextToastId) else old(nextToastId) + 1
      ensures ordem == |old(secoes)|
      ensures remote.Stored? ==> (secoes == old(secoes) + [remote.value] && r == Returned(remote.value)
        && toasts == Announce(old(toasts), HasData(), SUCCESS, SECAO_ADICIONADA, old(nextToastId)))
      ensures remote.Rejected? ==> (secoes == old(secoes) && r == Thrown
        && toasts == Announce(old(toasts), HasData(), ERROR, ERRO_ADICIONAR_SECAO, old(nextToastId)))
      ensures favoritos == old(favoritos)
      ensures secoesFechadas == old(secoesFechadas) && termoPesquisa == old(termoPesquisa)
    {
      ordem := |secoes|;
      match remote
      case Stored(secao) =>
        secoes := secoes + [secao];
        AdicionarToast(SUCCESS, SECAO_ADICIONADA);
        r := Returned(secao);
      case Rejected =>
        AdicionarToast(ERROR, ERRO_ADICIONAR_SECAO);
        r := Thrown;
    }

    /** `atualizarSecao(id, dados)`: merges the row the table returns into every section with that id. */
    method AtualizarSecao(id: Id, dados: NovaSecao, remote: Remote<Secao>) returns (r: Reply<Secao>)
      requires Valid()
      modifies this
      ensures Valid()
      ensures nextToastId == if toasts == old(toasts) then old(nextToastId) else old(nextToastId) + 1
      ensures remote.Stored? ==> (secoes == ComSecao(old(secoes), id, remote.value) && r == Returned(remote.value)
        && toasts == Announce(old(toasts), HasData(), SUCCESS, SECAO_ATUALIZADA, old(nextToastId)))
      ensures remote.Rejected? ==> (secoes == old(secoes) && r == Thrown
        && toasts == Announce(old(toasts), HasData(), ERROR, ERRO_ATUALIZAR_SECAO, old(nextToastId)))
      ensures favoritos == old(favoritos)
      ensures secoesFechadas == old(secoesFechadas) && termoPesquisa == old(termoPesquisa)
    {
      match remote
      case Stored(linha) =>
        secoes := ComSecao(secoes, id, linha);
        AdicionarToast(SUCCESS, SECAO_ATUALIZADA);
        r := Returned(linha);
      case Rejected =>
        AdicionarToast(ERROR, ERRO_ATUALIZAR_SECAO);
        r := Thrown;
    }

    /** `excluirSecao(id)`: deletes the section remotely, then drops it and its favorites locally. */
    method ExcluirSecao(id: Id, accepted: bool) returns (r: Reply<bool>)
      requires Valid()
      modifies this
      ensures Valid()
      ensures nextToastId == if toasts == old(toasts) then old(nextToastId) else old(nextToastId) + 1
      ensures accepted ==> (secoes == SemSecao(old(secoes), id) && favoritos == SemFavoritosDaSecao(old(favoritos), id)
        && r == Returned(true)
        && toasts == Announce(old(toasts), HasData(), SUCCESS, SECAO_EXCLUIDA, old(nextToastId)))
      ensures !accepted ==> (secoes == old(secoes) && favoritos == old(favoritos) && r == Thrown
        && toasts == Announce(old(toasts), HasData(), ERROR, ERRO_EXCLUIR_SECAO, old(nextToastId)))
      ensures secoesFechadas == old(secoesFechadas) && termoPesquisa == old(termoPesquisa)
    {
      if accepted {
        secoes := SemSecao(secoes, id);
        favoritos := SemFavoritosDaSecao(favoritos, id);
        AdicionarToast(SUCCESS, SECAO_EXCLUIDA);
        r := Returned(true);
      } else {
        AdicionarToast(ERROR, ERRO_EXCLUIR_SECAO);
        r := Thrown;
      }
    }

    /** `adicionarFavorito(novoFavorito)`: sends the fields with `ordem` = the number of favorites
        already in that section and appends the stored row if the table stores it. */
    method AdicionarFavorito(nova: NovoFavorito, remote: Remote<Favorito>) returns (ordem: int, r: Reply<Favorito>)
      requires Valid()
      modifies this
      ensures Valid()
      ensures nextToastId == if toasts == old(toasts) then old(nextToastId) else old(nextToastId) + 1
      ensures ordem == |OfSection(old(favoritos), nova.secaoId)|
      ensures remote.Stored? ==> (favoritos == old(favoritos) + [remote.value] && r == Returned(remote.value)
        && toasts == Announce(old(toasts), HasData(), SUCCESS, FAVORITO_ADICIONADO, old(nextToastId)))
      ensures remote.Rejected? ==> (favoritos == old(favoritos) && r == Thrown
        && toasts == Announce(old(toasts), HasData(), ERROR, ERRO_ADICIONAR_FAVORITO, old(nextToastId)))
      ensures secoes == old(secoes)
      ensures secoesFechadas == old(secoesFechadas) && termoPesquisa == old(termoPesquisa)
    {
      ordem := |OfSection(favoritos, nova.secaoId)|;
      match remote
      case Stored(favorito) =>
        favoritos := favoritos + [favorito];
        AdicionarToast(SUCCESS, FAVORITO_ADICIONADO);
        r := Returned(favorito);
      case Rejected =>
        AdicionarToast(ERROR, ERRO_ADICIONAR_FAVORITO);
        r := Thrown;
    }

    /** `atualizarFavorito(id, dados)`: merges the row the table returns into every favorite with that id. */
    method AtualizarFavorito(id: Id, dados: NovoFavorito, remote: Remote<Favorito>) returns (r: Reply<Favorito>)
      requires Valid()
      modifies this
      ensures Valid()
      ensures nextToastId == if toasts == old(toasts) then old(nextToastId) else old(nextToastId) + 1
      ensures remote.Stored? ==> (favoritos == ComFavorito(old(favoritos), id, remote.value) && r == Returned(remote.value)
        && toasts == Announce(old(toasts), HasData(), SUCCESS, FAVORITO_ATUALIZADO, old(nextToastId)))
      ensures remote.Rejected? ==> (favoritos == old(favoritos) && r == Thrown
        && toasts == Announce(old(toasts), HasData(), ERROR, ERRO_ATUALIZAR_FAVORITO, old(nextToastId)))
      ensures secoes == old(secoes)
      ensures secoesFechadas == old(secoesFechadas) && termoPesquisa == old(termoPesquisa)
    {
      match remote
      case Stored(linha) =>
        favoritos := ComFavorito(favoritos, id, linha);
        AdicionarToast(SUCCESS, FAVORITO_ATUALIZADO);
        r := Returned(linha);
      case Rejected =>
        AdicionarToast(ERROR, ERRO_ATUALIZAR_FAVORITO);
        r := Thrown;
    }

    /** `excluirFavorito(id)`. */
    method ExcluirFavorito(id: Id, accepted: bool) returns (r: Reply<bool>)
      requires Valid()
      modifies this
      ensures Valid()
      ensures nextToastId == if toasts == old(toasts) then old(nextToastId) else old(nextToastId) + 1
      ensures accepted ==> (favoritos == SemFavorito(old(favoritos), id) && r == Returned(true)
        && toasts == Announce(old(toasts), HasData(), SUCCESS, FAVORITO_EXCLUIDO, old(nextToastId)))
      ensures !accepted ==> (favoritos == old(favoritos) && r == Thrown
        && toasts == Announce(old(toasts), HasData(), ERROR, ERRO_EXCLUIR_FAVORITO, old(nextToastId)))
      ensures secoes == old(secoes)
      ensures secoesFechadas == old(secoesFechadas) && termoPesquisa == old(termoPesquisa)
    {
      if accepted {
        favoritos := SemFavorito(favoritos, id);
        AdicionarToast(SUCCESS, FAVORITO_EXCLUIDO);
        r := Returned(true);
      } else {
        AdicionarToast(ERROR, ERRO_EXCLUIR_FAVORITO);
        r := Thrown;
      }
    }

    /** `atualizarOrdemSecoes(novaOrdem)`: local sections become the argument before the upsert is
        sent, and stay so when the upsert is rejected. */
    method AtualizarOrdemSecoes(novaOrdem: seq<Secao>, accepted: bool) returns (payload: seq<SecaoOrdem>, r: Reply<bool>)
      requires Valid()
      modifies this
      ensures Valid()
      ensures nextToastId == if toasts == old(toasts) then old(nextToastId) else old(nextToastId) + 1
      ensures secoes == novaOrdem
      ensures payload == PayloadSecoes(novaOrdem)
      ensures accepted ==> r == Returned(true) && toasts == old(toasts) && nextToastId == old(nextToastId)
      ensures !accepted ==> (r == Thrown
        && toasts == Announce(old(toasts), HasData(), ERROR, ERRO_ORDEM_SECOES, old(nextToastId)))
      ensures favoritos == old(favoritos)
      ensures secoesFechadas == old(secoesFechadas) && termoPesquisa == old(termoPesquisa)
    {
      secoes := novaOrdem;
      payload := PayloadSecoes(novaOrdem);
      if accepted {
        r := Returned(true);
      } else {
        AdicionarToast(ERROR, ERRO_ORDEM_SECOES);
        r := Thrown;
      }
    }

    /** `atualizarOrdemFavoritos(novaOrdem)`: local favorites become exactly the argument (their
        `ordem` fields untouched) before the upsert is sent, and stay so when it is rejected. */
    method AtualizarOrdemFavoritos(novaOrdem: seq<Favorito>, accepted: bool) returns (payload: seq<FavoritoOrdem>, r: Reply<bool>)
      requires Valid()
      modifies this
      ensures Valid()
      ensures nextToastId == if toasts == old(toasts) then old(nextToastId) else old(nextToastId) + 1
      ensures favoritos == novaOrdem
      ensures payload == PayloadFavoritos(novaOrdem)
      ensures accepted ==> r == Returned(true) && toasts == old(toasts) && nextToastId == old(nextToastId)
      ensures !accepted ==> (r == Thrown
        && toasts == Announce(old(toasts), HasData(), ERROR, ERRO_ORDEM_FAVORITOS, old(nextToastId)))
      ensures secoes == old(secoes)
      ensures secoesFechadas == old(secoesFechadas) && termoPesquisa == old(termoPesquisa)
    {
      favoritos := novaOrdem;
      payload := PayloadFavoritos(novaOrdem);
      if accepted {
        r := Returned(true);
      } else {
        AdicionarToast(ERROR, ERRO_ORDEM_FAVORITOS);
        r := Thrown;
      }
    }

    /** The corrected `atualizarOrdemFavoritos(novaOrdem)`: the same upsert, but the local list
        becomes `Reconciliar(favoritos, novaOrdem)`, so unsent favorites stay and the sent ones
        carry the ranks the upsert writes. */
    method ReconciliarOrdemFavoritos(novaOrdem: seq<Favorito>, accepted: bool) returns (payload: seq<FavoritoOrdem>, r: Reply<bool>)
      requires Valid()
      modifies this
      ensures Valid()
      ensures nextToastId == if toasts == old(toasts) then old(nextToastId) else old(nextToastId) + 1
      ensures favoritos == Reconciliar(old(favoritos), novaOrdem)
      ensures payload == PayloadFavoritos(novaOrdem)
      ensures accepted ==> r == Returned(true) && toasts == old(toasts) && nextToastId == old(nextToastId)
      ensures !accepted ==> (r == Thrown
        && toasts == Announce(old(toasts), HasData(), ERROR, ERRO_ORDEM_FAVORITOS, old(nextToastId)))
      ensures secoes == old(secoes)
      ensures secoesFechadas == old(secoesFechadas) && termoPesquisa == old(termoPesquisa)
    {
      favoritos := Reconciliar(favoritos, novaOrdem);
      payload := PayloadFavoritos(novaOrdem);
      if accepted {
        r := Returned(true);
      } else {
        AdicionarToast(ERROR, ERRO_ORDEM_FAVORITOS);
        r := Thrown;
      }
    }

    /** `alternarSecao(id)`. */
    method AlternarSecao(id: Id)
      modifies this
      ensures secoesFechadas == Alternada(old(secoesFechadas), id)
      ensures secoes == old(secoes) && favoritos == old(favoritos) && toasts == old(toasts)
      ensures termoPesquisa == old(termoPesquisa) && nextToastId == old(nextToastId)
    {
      secoesFechadas := Alternada(secoesFechadas, id);
    }
  }
}
