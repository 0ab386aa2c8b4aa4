/** The spreadsheet exchange of the import/export modal. Export turns every favorite the context
    hands out into a three-column row. Import walks the rows of the "Favoritos" sheet in order:
    it skips incomplete rows, finds the section of a row by its lowercased name, creates a missing
    section once and registers it, and sends one favorite per complete row through the store. */
module ImportExport {
  import opened Seqs
  import opened Text
  import opened Records
  import opened Toasts
  import opened FavoritosContext

  const SEM_SECAO: string := "Sem Seção"
  const FOLHA: string := "Favoritos"
  const COR_FUNDO: string := "#f3f4f6"
  const COR_TEXTO: string := "#111827"
  const EXPORTADOS: string := "Dados exportados com sucesso"
  const ERRO_EXPORTAR: string := "Erro ao exportar dados"
  const SELECIONE: string := "Selecione um arquivo para importar"
  const FORMATO_INVALIDO: string := "Formato de arquivo inválido"
  const IMPORTADOS: string := "Dados importados com sucesso"
  const ERRO_PROCESSAR: string := "Erro ao processar arquivo"
  const ERRO_IMPORTAR: string := "Erro ao importar dados"

  // ---------------------------------------------------------------------------------------------
  // Export

  /** A row of the exported sheet: the columns 'Seção', 'Nome do Favorito' and 'URL'. */
  datatype LinhaExport = LinhaExport(secao: string, nome: string, url: string)

  function IdDaSecao(s: Secao): Id
  {
    s.id
  }

  function TituloDaSecao(s: Secao): string
  {
    s.titulo
  }

  /** `mapeamentoSecoesNomes`: section id to title, filled in section order. */
  function NomesPorId(secoes: seq<Secao>): map<Id, string>
  {
    Indexar(secoes, IdDaSecao, TituloDaSecao)
  }

  /** The 'Seção' cell: the mapped title, or the placeholder when it is missing or empty. */
  function NomeExportado(nomes: map<Id, string>, secaoId: Id): (r: string)
    ensures r != ""
    ensures r == SEM_SECAO || (secaoId in nomes && r == nomes[secaoId])
  {
    if secaoId in nomes && nomes[secaoId] != "" then nomes[secaoId] else SEM_SECAO
  }

  /** `favoritos.map(...)`: one row per favorite, in order, with its title and raw URL. */
  function Exportar(secoes: seq<Secao>, favoritos: seq<Favorito>): (linhas: seq<LinhaExport>)
    ensures |linhas| == |favoritos|
    ensures forall i :: 0 <= i < |favoritos| ==>
      linhas[i].nome == favoritos[i].titulo && linhas[i].url == favoritos[i].url
  {
    var nomes := NomesPorId(secoes);
    seq(|favoritos|, i requires 0 <= i < |favoritos| =>
      LinhaExport(NomeExportado(nomes, favoritos[i].secaoId), favoritos[i].titulo, favoritos[i].url))
  }

  /** The 'Seção' column names the favorite's section: 'Sem Seção' when no section has its id,
      otherwise the title of the last section with that id (or 'Sem Seção' if that title is empty). */
  lemma ExportarSecao(secoes: seq<Secao>, favoritos: seq<Favorito>, i: nat)
    requires i < |favoritos|
    ensures (forall j :: 0 <= j < |secoes| ==> secoes[j].id != favoritos[i].secaoId) ==>
      Exportar(secoes, favoritos)[i].secao == SEM_SECAO
    ensures forall j :: 0 <= j < |secoes| && secoes[j].id == favoritos[i].secaoId
                        && (forall k :: j < k < |secoes| ==> secoes[k].id != favoritos[i].secaoId) ==>
      Exportar(secoes, favoritos)[i].secao == if secoes[j].titulo == "" then SEM_SECAO else secoes[j].titulo
  {
    var id := favoritos[i].secaoId;
    var nomes := NomesPorId(secoes);
    IndexarSpec(secoes, IdDaSecao, TituloDaSecao);
    assert Exportar(secoes, favoritos)[i].secao == NomeExportado(nomes, id);
    forall j | 0 <= j < |secoes| && secoes[j].id == id && (forall k :: j < k < |secoes| ==> secoes[k].id != id)
      ensures nomes[id] == secoes[j].titulo
    {
      assert IdDaSecao(secoes[j]) == id;
      var w :| 0 <= w < |secoes| && IdDaSecao(secoes[w]) == id && nomes[id] == TituloDaSecao(secoes[w])
               && (forall k :: w < k < |secoes| ==> IdDaSecao(secoes[k]) != id);
      assert !(w < j);
      assert !(j < w);
    }
  }

  /** `exportarDados()`: the rows are built from the favorites the context hands out (the search
      result while a term is set); `gravou` says whether writing the workbook succeeded. */
  method ExportarDados(store: Store, gravou: bool) returns (linhas: seq<LinhaExport>)
    requires store.Valid()
    modifies store
    ensures store.Valid()
    ensures linhas == Exportar(old(store.secoes), FavoritosFiltrados(old(store.favoritos), old(store.termoPesquisa)))
    ensures gravou ==> store.toasts == Announce(old(store.toasts), old(store.HasData()), SUCCESS, EXPORTADOS, old(store.nextToastId))
    ensures !gravou ==> store.toasts == Announce(old(store.toasts), old(store.HasData()), ERROR, ERRO_EXPORTAR, old(store.nextToastId))
    ensures store.secoes == old(store.secoes) && store.favoritos == old(store.favoritos)
    ensures store.secoesFechadas == old(store.secoesFechadas) && store.termoPesquisa == old(store.termoPesquisa)
  {
    linhas := Exportar(store.secoes, store.FavoritosVisiveis());
    if gravou {
      store.AdicionarToast(SUCCESS, EXPORTADOS);
    } else {
      store.AdicionarToast(ERROR, ERRO_EXPORTAR);
    }
  }

  // ---------------------------------------------------------------------------------------------
  // Import: the rows and how one row is read

  /** A row as `sheet_to_json` yields it; a missing cell is `None`. */
  datatype Linha = Linha(secao: Option<string>, nome: Option<string>, url: Option<string>)

  /** `favorito['Seção'] || 'Sem Seção'`. */
  function NomeSecao(l: Linha): (r: string)
    ensures r != ""
    ensures l.secao.Some? && l.secao.value != "" ==> r == l.secao.value
    ensures l.secao.None? || l.secao.value == "" ==> r == SEM_SECAO
  {
    if l.secao.Some? && l.secao.value != "" then l.secao.value else SEM_SECAO
  }

  /** The row is imported: both its title and its URL are present and non-empty. */
  predicate Aceita(l: Linha)
  {
    l.nome.Some? && l.nome.value != "" && l.url.Some? && l.url.value != ""
  }

  /** The complete rows, in sheet order. */
  function Aceitas(linhas: seq<Linha>): seq<Linha>
  {
    Filter(linhas, Aceita)
  }

  /** The address whose host names the favicon: `https://` is put in front unless the URL already
      starts with `http`. */
  function AlvoFavicon(url: string): (r: string)
    ensures StartsWith(r, "http")
    ensures StartsWith(url, "http") ==> r == url
    ensures !StartsWith(url, "http") ==> r == "https://" + url
  {
    if StartsWith(url, "http") then url else "https://" + url
  }

  function Chave(s: Secao): string
  {
    LowerStr(s.titulo)
  }

  /** `mapaSecoesIds`: lowercased section title to section id, filled in section order. */
  function MapaDe(secoes: seq<Secao>): map<string, Id>
  {
    Indexar(secoes, Chave, IdDaSecao)
  }

  /** Lookup ignores case: a name is found exactly when some section's title lowercases to the
      same string, and it finds the last such section. */
  lemma MapaDeSpec(secoes: seq<Secao>, nome: string)
    ensures LowerStr(nome) in MapaDe(secoes) <==>
      exists j :: 0 <= j < |secoes| && LowerStr(secoes[j].titulo) == LowerStr(nome)
    ensures LowerStr(nome) in MapaDe(secoes) ==>
      exists j :: (0 <= j < |secoes| && LowerStr(secoes[j].titulo) == LowerStr(nome)
                   && MapaDe(secoes)[LowerStr(nome)] == secoes[j].id
                   && forall k :: j < k < |secoes| ==> LowerStr(secoes[k].titulo) != LowerStr(nome))
  {
    IndexarSpec(secoes, Chave, IdDaSecao);
    var t := LowerStr(nome);
    if exists j :: 0 <= j < |secoes| && LowerStr(secoes[j].titulo) == t {
      var j :| 0 <= j < |secoes| && LowerStr(secoes[j].titulo) == t;
      assert Chave(secoes[j]) == t;
    }
    if t in MapaDe(secoes) {
      var j :| 0 <= j < |secoes| && Chave(secoes[j]) == t && MapaDe(secoes)[t] == IdDaSecao(secoes[j])
               && (forall k :: j < k < |secoes| ==> Chave(secoes[k]) != t);
      assert forall k :: j < k < |secoes| ==> LowerStr(secoes[k].titulo) != t by {
        forall k | j < k < |secoes| ensures LowerStr(secoes[k].titulo) != t {
          assert Chave(secoes[k]) != t;
        }
      }
    }
  }

  // ---------------------------------------------------------------------------------------------
  // Import: the loop as a fold

  /** What the outside world answers: the table's reply to the section and to the favorite that
      row `i` asks for, and the hostname `new URL(u)` yields (`None` if the constructor throws). */
  datatype Respostas = Respostas(secao: nat -> Remote<Secao>, favorito: nat -> Remote<Favorito>,
                                 hostname: string -> Option<string>)

  /** The state the loop works on: its name map, the store's collections, toast queue and uuid
      supply, and the creation requests sent so far. */
  datatype Curso = Curso(mapa: map<string, Id>, secoes: seq<Secao>, favoritos: seq<Favorito>,
                         toasts: seq<Toast>, proximo: nat,
                         secoesPedidas: seq<NovaSecao>, favoritosPedidos: seq<NovoFavorito>)

  /** The state the loop starts from. */
  function Inicio(secoes: seq<Secao>, favoritos: seq<Favorito>, toasts: seq<Toast>, proximo: nat): Curso
  {
    Curso(MapaDe(secoes), secoes, favoritos, toasts, proximo, [], [])
  }

  /** `adicionarToast(tipo, mensagem)` on the store the loop drives. */
  function Avisar(c: Curso, tipo: string, mensagem: string): (r: Curso)
    ensures r.mapa == c.mapa && r.secoes == c.secoes && r.favoritos == c.favoritos
    ensures r.secoesPedidas == c.secoesPedidas && r.favoritosPedidos == c.favoritosPedidos
  {
    var ts := Announce(c.toasts, c.secoes != [] || c.favoritos != [], tipo, mensagem, c.proximo);
    c.(toasts := ts, proximo := if ts == c.toasts then c.proximo else c.proximo + 1)
  }

  /** Lines 118-124: the favicon address is computed first (a hostname failure ends the row before
      any call), then `adicionarFavorito` is asked for the row's title, raw URL and section. */
  function Enviar(c: Curso, l: Linha, sid: Id, i: nat, o: Respostas): (r: Curso)
    requires Aceita(l)
    ensures Estende(c, r) && r.mapa == c.mapa && r.secoes == c.secoes && r.secoesPedidas == c.secoesPedidas
    ensures |r.favoritosPedidos| <= |c.favoritosPedidos| + 1
  {
    match o.hostname(AlvoFavicon(l.url.value))
    case None => c
    case Some(host) =>
      var c1 := c.(favoritosPedidos := c.favoritosPedidos + [NovoFavorito(l.nome.value, l.url.value, sid, FaviconUrl(host))]);
      match o.favorito(i)
      case Stored(f) => Avisar(c1.(favoritos := c1.favoritos + [f]), SUCCESS, FAVORITO_ADICIONADO)
      case Rejected => Avisar(c1, ERROR, ERRO_ADICIONAR_FAVORITO)
  }

  /** Lines 96-115 for a complete row: the section id is looked up by the lowercased name or,
      when missing, the section is created and its name registered; `None` when the creation is
      rejected, whose error ends the row without registering the name. */
  function Resolver(c: Curso, l: Linha, i: nat, o: Respostas): (r: (Curso, Option<Id>))
    ensures Estende(c, r.0) && r.0.favoritos == c.favoritos && r.0.favoritosPedidos == c.favoritosPedidos
    ensures |r.0.secoesPedidas| <= |c.secoesPedidas| + 1
  {
    var nome := NomeSecao(l);
    var chave := LowerStr(nome);
    if chave in c.mapa then
      var id: Id := c.mapa[chave];
      (c, Some(id))
    else
      var c1 := c.(secoesPedidas := c.secoesPedidas + [NovaSecao(nome, COR_FUNDO, COR_TEXTO)]);
      match o.secao(i)
      case Rejected => (Avisar(c1, ERROR, ERRO_ADICIONAR_SECAO), None)
      case Stored(s) =>
        var c2 := Avisar(c1.(secoes := c1.secoes + [s]), SUCCESS, SECAO_ADICIONADA);
        var id: Id := s.id;
        (c2.(mapa := c2.mapa[chave := id]), Some(id))
  }

  /** One turn of the loop for row `i`: an incomplete row is skipped. */
  function Passo(c: Curso, l: Linha, i: nat, o: Respostas): (r: Curso)
    ensures Estende(c, r)
    ensures |r.favoritosPedidos| <= |c.favoritosPedidos| + 1 && |r.secoesPedidas| <= |c.secoesPedidas| + 1
  {
    if !Aceita(l) then c
    else
      var resolvido := Resolver(c, l, i, o);
      match resolvido.1
      case None => resolvido.0
      case Some(sid) => Enviar(resolvido.0, l, sid, i, o)
  }

  /** Every registered name keeps its id, and the collections and request lists only grow. */
  predicate Estende(c: Curso, r: Curso)
  {
    (forall k :: k in c.mapa ==> k in r.mapa && r.mapa[k] == c.mapa[k])
    && c.secoes <= r.secoes && c.favoritos <= r.favoritos
    && c.secoesPedidas <= r.secoesPedidas && c.favoritosPedidos <= r.favoritosPedidos
  }

  /** The loop over the first `|linhas|` rows; every row is handled and a failing row never stops
      the ones after it. */
  function Processar(c: Curso, linhas: seq<Linha>, o: Respostas): (r: Curso)
    ensures Estende(c, r)
    ensures |r.favoritosPedidos| <= |c.favoritosPedidos| + |linhas|
    ensures |r.secoesPedidas| <= |c.secoesPedidas| + |linhas|
    decreases |linhas|
  {
    if linhas == [] then c
    else
      var n := |linhas| - 1;
      Passo(Processar(c, linhas[..n], o), linhas[n], n, o)
  }

  lemma ProcessarSnoc(c: Curso, linhas: seq<Linha>, l: Linha, o: Respostas)
    ensures Processar(c, linhas + [l], o) == Passo(Processar(c, linhas, o), l, |linhas|, o)
  {
    assert (linhas + [l])[..|linhas|] == linhas;
  }

  // ---------------------------------------------------------------------------------------------
  // Import: what the fold guarantees

  /** Rows without a title or a URL create nothing and change nothing. */
  lemma {:induction false} ProcessarIgnora(c: Curso, linhas: seq<Linha>, o: Respostas)
    requires forall i :: 0 <= i < |linhas| ==> !Aceita(linhas[i])
    ensures Processar(c, linhas, o) == c
    decreases |linhas|
  {
    if linhas != [] {
      ProcessarIgnora(c, linhas[..|linhas| - 1], o);
    }
  }

  /** `pedido` is the favorite request of the complete row `l`: its title, its URL as written,
      and the id that `mapa` registers for the row's lowercased section name. */
  predicate PedidoDe(pedido: NovoFavorito, l: Linha, mapa: map<string, Id>)
  {
    Aceita(l) && pedido.titulo == l.nome.value && pedido.url == l.url.value
    && LowerStr(NomeSecao(l)) in mapa && pedido.secaoId == mapa[LowerStr(NomeSecao(l))]
  }

  /** `pedido` is the favorite request of one of the rows. */
  ghost predicate DeAlgumaLinha(pedido: NovoFavorito, linhas: seq<Linha>, mapa: map<string, Id>)
  {
    exists i :: 0 <= i < |linhas| && PedidoDe(pedido, linhas[i], mapa)
  }

  /** A request of a row stays that row's request as the name map grows. */
  lemma PedidoDeEstende(pedido: NovoFavorito, l: Linha, c: Curso, r: Curso)
    requires PedidoDe(pedido, l, c.mapa) && Estende(c, r)
    ensures PedidoDe(pedido, l, r.mapa)
  {
  }

  /** Every favorite the loop asks for comes from a complete row: it carries that row's title and
      its URL as written, and the id the row's lowercased section name is registered under. */
  lemma {:induction false} PedidoDaLinha(c: Curso, linhas: seq<Linha>, o: Respostas)
    ensures forall k :: |c.favoritosPedidos| <= k < |Processar(c, linhas, o).favoritosPedidos| ==>
      DeAlgumaLinha(Processar(c, linhas, o).favoritosPedidos[k], linhas, Processar(c, linhas, o).mapa)
    decreases |linhas|
  {
    if linhas != [] {
      var n := |linhas| - 1;
      var ini := linhas[..n];
      PedidoDaLinha(c, ini, o);
      PedidoDoPasso(Processar(c, ini, o), linhas[n], n, o);
      assert linhas == ini + [linhas[n]];
      PedidosDaLinhas(c, Processar(c, ini, o), Processar(c, linhas, o), ini, linhas[n], linhas);
    } else {
      assert Processar(c, linhas, o) == c;
    }
  }

  /** The induction step of `PedidoDaLinha`: the requests of the earlier rows keep their rows, and
      the new request, if any, belongs to the new row. */
  lemma PedidosDaLinhas(c: Curso, p: Curso, r: Curso, ini: seq<Linha>, l: Linha, linhas: seq<Linha>)
    requires linhas == ini + [l]
    requires forall k :: |c.favoritosPedidos| <= k < |p.favoritosPedidos| ==>
      DeAlgumaLinha(p.favoritosPedidos[k], ini, p.mapa)
    requires Estende(p, r) && |r.favoritosPedidos| <= |p.favoritosPedidos| + 1
    requires |r.favoritosPedidos| > |p.favoritosPedidos| ==> PedidoDe(r.favoritosPedidos[|p.favoritosPedidos|], l, r.mapa)
    ensures forall k :: |c.favoritosPedidos| <= k < |r.favoritosPedidos| ==>
      DeAlgumaLinha(r.favoritosPedidos[k], linhas, r.mapa)
  {
    forall k | |c.favoritosPedidos| <= k < |r.favoritosPedidos|
      ensures DeAlgumaLinha(r.favoritosPedidos[k], linhas, r.mapa)
    {
      if k < |p.favoritosPedidos| {
        var i :| 0 <= i < |ini| && PedidoDe(p.favoritosPedidos[k], ini[i], p.mapa);
        assert linhas[i] == ini[i];
        assert r.favoritosPedidos[k] == p.favoritosPedidos[k];
        assert PedidoDe(r.favoritosPedidos[k], linhas[i], r.mapa);
      } else {
        assert linhas[|ini|] == l;
        assert PedidoDe(r.favoritosPedidos[k], linhas[|ini|], r.mapa);
      }
    }
  }

  /** A turn asks for at most one favorite, and only for its own complete row, with the id the
      row's name is registered under afterwards. */
  lemma PedidoDoPasso(c: Curso, l: Linha, i: nat, o: Respostas)
    ensures var r := Passo(c, l, i, o);
      Estende(c, r) && |r.favoritosPedidos| <= |c.favoritosPedidos| + 1
      && (|r.favoritosPedidos| > |c.favoritosPedidos| ==> PedidoDe(r.favoritosPedidos[|c.favoritosPedidos|], l, r.mapa))
  {
  }

  /** Every answer positive: each table call stores, and every URL has a hostname. */
  ghost predicate TudoAceito(o: Respostas)
  {
    (forall i: nat :: o.secao(i).Stored?) && (forall i: nat :: o.favorito(i).Stored?)
    && (forall u :: o.hostname(u).Some?)
  }

  /** When every call succeeds, each complete row creates exactly one favorite, in row order,
      with that row's title, its raw URL and the id its section name is registered under, and the
      store gains exactly one favorite per such row. */
  lemma {:induction false} ImportacaoCompleta(c: Curso, linhas: seq<Linha>, o: Respostas)
    requires TudoAceito(o)
    ensures var r := Processar(c, linhas, o);
      |r.favoritosPedidos| == |c.favoritosPedidos| + |Aceitas(linhas)|
      && |r.favoritos| == |c.favoritos| + |Aceitas(linhas)|
      && forall k :: 0 <= k < |Aceitas(linhas)| ==>
           PedidoDe(r.favoritosPedidos[|c.favoritosPedidos| + k], Aceitas(linhas)[k], r.mapa)
    decreases |linhas|
  {
    if linhas != [] {
      var n := |linhas| - 1;
      var ini, l := linhas[..n], linhas[n];
      ImportacaoCompleta(c, ini, o);
      assert linhas == ini + [l];
      ProcessarSnoc(c, ini, l, o);
      PassoAceito(Processar(c, ini, o), l, n, o);
      PedidoDoPasso(Processar(c, ini, o), l, n, o);
      CompletaPasso(c, Processar(c, ini, o), Processar(c, linhas, o), ini, l, linhas);
    }
  }

  /** The step of `ImportacaoCompleta`: the requests after `ini` plus what one more row adds. */
  lemma CompletaPasso(c: Curso, p: Curso, r: Curso, ini: seq<Linha>, l: Linha, linhas: seq<Linha>)
    requires linhas == ini + [l]
    requires |p.favoritosPedidos| == |c.favoritosPedidos| + |Aceitas(ini)|
      && |p.favoritos| == |c.favoritos| + |Aceitas(ini)|
    requires forall k :: 0 <= k < |Aceitas(ini)| ==>
      PedidoDe(p.favoritosPedidos[|c.favoritosPedidos| + k], Aceitas(ini)[k], p.mapa)
    requires Estende(p, r)
    requires Aceita(l) ==> (|r.favoritosPedidos| == |p.favoritosPedidos| + 1 && |r.favoritos| == |p.favoritos| + 1
      && PedidoDe(r.favoritosPedidos[|p.favoritosPedidos|], l, r.mapa))
    requires !Aceita(l) ==> r.favoritosPedidos == p.favoritosPedidos && r.favoritos == p.favoritos
    ensures |r.favoritosPedidos| == |c.favoritosPedidos| + |Aceitas(linhas)|
      && |r.favoritos| == |c.favoritos| + |Aceitas(linhas)|
      && forall k :: 0 <= k < |Aceitas(linhas)| ==>
           PedidoDe(r.favoritosPedidos[|c.favoritosPedidos| + k], Aceitas(linhas)[k], r.mapa)
  {
    FilterAppend(ini, [l], Aceita);
    var a := Aceitas(linhas);
    forall k | 0 <= k < |a|
      ensures PedidoDe(r.favoritosPedidos[|c.favoritosPedidos| + k], a[k], r.mapa)
    {
      if k < |Aceitas(ini)| {
        assert a[k] == Aceitas(ini)[k];
        assert r.favoritosPedidos[|c.favoritosPedidos| + k] == p.favoritosPedidos[|c.favoritosPedidos| + k];
        PedidoDeEstende(p.favoritosPedidos[|c.favoritosPedidos| + k], a[k], p, r);
      } else {
        assert a[k] == l;
      }
    }
  }

  /** With every call succeeding, a complete row adds exactly one request and one favorite. */
  lemma PassoAceito(c: Curso, l: Linha, i: nat, o: Respostas)
    requires TudoAceito(o)
    ensures var r := Passo(c, l, i, o);
      (Aceita(l) ==> |r.favoritosPedidos| == |c.favoritosPedidos| + 1 && |r.favoritos| == |c.favoritos| + 1
                     && r.favoritosPedidos[|c.favoritosPedidos|].titulo == l.nome.value
                     && r.favoritosPedidos[|c.favoritosPedidos|].url == l.url.value)
      && (!Aceita(l) ==> r == c)
  {
    if Aceita(l) {
      assert o.hostname(AlvoFavicon(l.url.value)).Some?;
      assert o.favorito(i).Stored?;
      if LowerStr(NomeSecao(l)) !in c.mapa {
        assert o.secao(i).Stored?;
      }
    }
  }

  /** The lowercased names of the sections `r` has asked for are pairwise different, none of them
      is registered in `c`, and all are registered in `r`. */
  ghost predicate CriadasUmaVez(c: Curso, r: Curso)
  {
    (forall a :: 0 <= a < |r.secoesPedidas| ==>
       LowerStr(r.secoesPedidas[a].titulo) !in c.mapa && LowerStr(r.secoesPedidas[a].titulo) in r.mapa)
    && forall a, b :: 0 <= a < b < |r.secoesPedidas| ==>
         LowerStr(r.secoesPedidas[a].titulo) != LowerStr(r.secoesPedidas[b].titulo)
  }

  /** When section creations succeed, each missing name is created once and registered, so every
      later row with that name, in any case, reuses it; names registered at the start are never
      created. */
  lemma {:induction false} SecoesCriadasUmaVez(c: Curso, linhas: seq<Linha>, o: Respostas)
    requires forall i: nat :: o.secao(i).Stored?
    requires c.secoesPedidas == []
    ensures CriadasUmaVez(c, Processar(c, linhas, o))
    decreases |linhas|
  {
    if linhas != [] {
      var n := |linhas| - 1;
      SecoesCriadasUmaVez(c, linhas[..n], o);
      SecaoDoPasso(Processar(c, linhas[..n], o), linhas[n], n, o);
      CriadasPasso(c, Processar(c, linhas[..n], o), Processar(c, linhas, o));
    } else {
      assert Processar(c, linhas, o) == c;
    }
  }

  /** The induction step of `SecoesCriadasUmaVez`. */
  lemma CriadasPasso(c: Curso, p: Curso, r: Curso)
    requires CriadasUmaVez(c, p) && Estende(c, p) && Estende(p, r)
    requires |r.secoesPedidas| <= |p.secoesPedidas| + 1
    requires |r.secoesPedidas| > |p.secoesPedidas| ==>
      LowerStr(r.secoesPedidas[|p.secoesPedidas|].titulo) !in p.mapa
      && LowerStr(r.secoesPedidas[|p.secoesPedidas|].titulo) in r.mapa
    ensures CriadasUmaVez(c, r)
  {
    forall a, b | 0 <= a < b < |r.secoesPedidas|
      ensures LowerStr(r.secoesPedidas[a].titulo) != LowerStr(r.secoesPedidas[b].titulo)
    {
      assert r.secoesPedidas[a] == p.secoesPedidas[a];
      if b < |p.secoesPedidas| {
        assert r.secoesPedidas[b] == p.secoesPedidas[b];
      } else {
        assert LowerStr(p.secoesPedidas[a].titulo) in p.mapa;
      }
    }
    forall a | 0 <= a < |r.secoesPedidas|
      ensures LowerStr(r.secoesPedidas[a].titulo) !in c.mapa && LowerStr(r.secoesPedidas[a].titulo) in r.mapa
    {
      if a < |p.secoesPedidas| {
        assert r.secoesPedidas[a] == p.secoesPedidas[a];
      }
    }
  }

  /** A turn asks for at most one section: only for a name not registered yet, and it registers
      that name when the creation succeeds. */
  lemma SecaoDoPasso(c: Curso, l: Linha, i: nat, o: Respostas)
    requires o.secao(i).Stored?
    ensures var r := Passo(c, l, i, o);
      Estende(c, r) && |r.secoesPedidas| <= |c.secoesPedidas| + 1
      && (|r.secoesPedidas| > |c.secoesPedidas| ==>
            LowerStr(r.secoesPedidas[|c.secoesPedidas|].titulo) !in c.mapa
            && LowerStr(r.secoesPedidas[|c.secoesPedidas|].titulo) in r.mapa)
  {
  }

  // ---------------------------------------------------------------------------------------------
  // Import and export together

  /** Reading an exported row back: every cell is present. */
  function Reler(e: LinhaExport): Linha
  {
    Linha(Some(e.secao), Some(e.nome), Some(e.url))
  }

  /** The exported sheet as import reads it. */
  function Relidas(secoes: seq<Secao>, favoritos: seq<Favorito>): (r: seq<Linha>)
    ensures |r| == |favoritos|
  {
    var linhas := Exportar(secoes, favoritos);
    seq(|linhas|, i requires 0 <= i < |linhas| => Reler(linhas[i]))
  }

  /** A favorite with a title and a URL: the ones an exported sheet brings back. */
  predicate Completo(f: Favorito)
  {
    f.titulo != "" && f.url != ""
  }

  /** Importing an exported sheet reads every section cell back unchanged, and its complete rows
      are exactly the exported favorites that have a title and a URL, in order, each row with its
      favorite's title, URL and exported 'Seção' cell. */
  lemma RelidasAceitas(secoes: seq<Secao>, favoritos: seq<Favorito>)
    ensures forall i :: 0 <= i < |favoritos| ==>
      NomeSecao(Relidas(secoes, favoritos)[i]) == Exportar(secoes, favoritos)[i].secao
    ensures |Aceitas(Relidas(secoes, favoritos))| == |Filter(favoritos, Completo)|
    ensures forall k :: 0 <= k < |Filter(favoritos, Completo)| ==>
      Aceitas(Relidas(secoes, favoritos))[k].nome == Some(Filter(favoritos, Completo)[k].titulo)
      && Aceitas(Relidas(secoes, favoritos))[k].url == Some(Filter(favoritos, Completo)[k].url)
      && NomeSecao(Aceitas(Relidas(secoes, favoritos))[k])
           == NomeExportado(NomesPorId(secoes), Filter(favoritos, Completo)[k].secaoId)
  {
    var nomes := NomesPorId(secoes);
    var ls, fs := Relidas(secoes, favoritos), Filter(favoritos, Completo);
    FiltroParalelo(ls, favoritos, nomes);
    forall k | 0 <= k < |fs|
      ensures NomeSecao(Aceitas(ls)[k]) == NomeExportado(nomes, fs[k].secaoId)
    {
      assert Aceitas(ls)[k].secao == Some(NomeExportado(nomes, fs[k].secaoId));
    }
  }

  /** Rows carrying, cell by cell, the titles, URLs and exported section names of a list of
      favorites: the complete rows match, in order, the favorites that have a title and a URL. */
  lemma {:induction false} FiltroParalelo(ls: seq<Linha>, fs: seq<Favorito>, nomes: map<Id, string>)
    requires |ls| == |fs|
    requires forall i :: 0 <= i < |ls| ==>
      (ls[i].nome == Some(fs[i].titulo) && ls[i].url == Some(fs[i].url)
       && ls[i].secao == Some(NomeExportado(nomes, fs[i].secaoId)))
    ensures |Filter(ls, Aceita)| == |Filter(fs, Completo)|
    ensures forall k :: 0 <= k < |Filter(fs, Completo)| ==>
      Filter(ls, Aceita)[k].nome == Some(Filter(fs, Completo)[k].titulo)
      && Filter(ls, Aceita)[k].url == Some(Filter(fs, Completo)[k].url)
      && Filter(ls, Aceita)[k].secao == Some(NomeExportado(nomes, Filter(fs, Completo)[k].secaoId))
    decreases |ls|
  {
    if ls != [] {
      FiltroParalelo(ls[1..], fs[1..], nomes);
      assert Aceita(ls[0]) <==> Completo(fs[0]);
      if Aceita(ls[0]) {
        var la, fa := Filter(ls, Aceita), Filter(fs, Completo);
        forall k | 0 <= k < |fa|
          ensures la[k].nome == Some(fa[k].titulo) && la[k].url == Some(fa[k].url)
            && la[k].secao == Some(NomeExportado(nomes, fa[k].secaoId))
        {
          if k > 0 {
            assert la[k] == Filter(ls[1..], Aceita)[k - 1];
            assert fa[k] == Filter(fs[1..], Completo)[k - 1];
          }
        }
      }
    }
  }


  /** Round trip: when every call succeeds, importing an exported sheet asks for one favorite per
      exported favorite that has a title and a URL, in order, with the same title and URL and the
      id the import registered for the favorite's exported section name. */
  lemma ExportarImportar(secoes: seq<Secao>, favoritos: seq<Favorito>, c: Curso, o: Respostas)
    requires TudoAceito(o)
    ensures var r := Processar(c, Relidas(secoes, favoritos), o);
      var fs := Filter(favoritos, Completo);
      |r.favoritosPedidos| == |c.favoritosPedidos| + |fs|
      && forall k :: 0 <= k < |fs| ==>
           var nome := LowerStr(NomeExportado(NomesPorId(secoes), fs[k].secaoId));
           && r.favoritosPedidos[|c.favoritosPedidos| + k].titulo == fs[k].titulo
           && r.favoritosPedidos[|c.favoritosPedidos| + k].url == fs[k].url
           && nome in r.mapa && r.favoritosPedidos[|c.favoritosPedidos| + k].secaoId == r.mapa[nome]
  {
    RelidasAceitas(secoes, favoritos);
    ImportacaoCompleta(c, Relidas(secoes, favoritos), o);
  }

  // ---------------------------------------------------------------------------------------------
  // Import: the loop over the store

  /** What the loop sees of the store, with its own name map and request lists. */
  function Estado(store: Store, mapa: map<string, Id>, sp: seq<NovaSecao>, fp: seq<NovoFavorito>): Curso
    reads store
  {
    Curso(mapa, store.secoes, store.favoritos, store.toasts, store.nextToastId, sp, fp)
  }

  /** The `for` loop of lines 94-128 over the store: after it, the store and the requests sent
      are those of the fold over all rows. */
  method ImportarLinhas(store: Store, linhas: seq<Linha>, o: Respostas)
    returns (secoesPedidas: seq<NovaSecao>, favoritosPedidos: seq<NovoFavorito>)
    requires store.Valid()
    modifies store
    ensures store.Valid()
    ensures Processar(Inicio(old(store.secoes), old(store.favoritos), old(store.toasts), old(store.nextToastId)), linhas, o)
      == Curso(Processar(Inicio(old(store.secoes), old(store.favoritos), old(store.toasts), old(store.nextToastId)), linhas, o).mapa,
               store.secoes, store.favoritos, store.toasts, store.nextToastId, secoesPedidas, favoritosPedidos)
    ensures store.secoesFechadas == old(store.secoesFechadas) && store.termoPesquisa == old(store.termoPesquisa)
  {
    ghost var c0 := Inicio(store.secoes, store.favoritos, store.toasts, store.nextToastId);
    var mapa: map<string, Id> := MapaDe(store.secoes);
    secoesPedidas, favoritosPedidos := [], [];
    var i := 0;
    while i < |linhas|
      invariant 0 <= i <= |linhas|
      invariant store.Valid()
      invariant Estado(store, mapa, secoesPedidas, favoritosPedidos) == Processar(c0, linhas[..i], o)
      invariant store.secoesFechadas == old(store.secoesFechadas) && store.termoPesquisa == old(store.termoPesquisa)
    {
      var l := linhas[i];
      mapa, secoesPedidas, favoritosPedidos := ImportarLinha(store, l, i, o, mapa, secoesPedidas, favoritosPedidos);
      ProcessarSnoc(c0, linhas[..i], l, o);
      assert linhas[..i + 1] == linhas[..i] + [l];
      i := i + 1;
    }
    assert linhas[..|linhas|] == linhas;
  }

  /** One turn of the loop on the store. */
  method ImportarLinha(store: Store, l: Linha, i: nat, o: Respostas, mapa: map<string, Id>,
                       sp: seq<NovaSecao>, fp: seq<NovoFavorito>)
    returns (mapa2: map<string, Id>, sp2: seq<NovaSecao>, fp2: seq<NovoFavorito>)
    requires store.Valid()
    modifies store
    ensures store.Valid()
    ensures Estado(store, mapa2, sp2, fp2) == Passo(old(Estado(store, mapa, sp, fp)), l, i, o)
    ensures store.secoesFechadas == old(store.secoesFechadas) && store.termoPesquisa == old(store.termoPesquisa)
  {
    mapa2, sp2, fp2 := mapa, sp, fp;
    if Aceita(l) {
      var sid;
      mapa2, sp2, sid := ResolverSecao(store, l, i, o, mapa, sp, fp);
      if sid.Some? {
        EnviarLinha(store, l, sid.value, i, o, mapa2, sp2, fp);
        fp2 := fp + FavoritoPedido(l, sid.value, o);
      }
    }
  }

  /** Lines 96-115 on the store: look the name up, or ask `adicionarSecao` for the section and
      register its id. */
  method ResolverSecao(store: Store, l: Linha, i: nat, o: Respostas, mapa: map<string, Id>,
                       sp: seq<NovaSecao>, ghost fp: seq<NovoFavorito>)
    returns (mapa2: map<string, Id>, sp2: seq<NovaSecao>, sid: Option<Id>)
    requires store.Valid()
    modifies store
    ensures store.Valid()
    ensures (Estado(store, mapa2, sp2, fp), sid) == Resolver(old(Estado(store, mapa, sp, fp)), l, i, o)
    ensures store.secoesFechadas == old(store.secoesFechadas) && store.termoPesquisa == old(store.termoPesquisa)
  {
    var nome := NomeSecao(l);
    var chave := LowerStr(nome);
    mapa2, sp2 := mapa, sp;
    if chave in mapa {
      var existente: Id := mapa[chave];
      sid := Some(existente);
    } else {
      var nova := NovaSecao(nome, COR_FUNDO, COR_TEXTO);
      sp2 := sp + [nova];
      var _, r := store.AdicionarSecao(nova, o.secao(i));
      if r.Returned? {
        var criada: Id := r.value.id;
        mapa2 := mapa[chave := criada];
        sid := Some(criada);
      } else {
        sid := None;
      }
    }
  }

  /** The favorite request row `l` sends once its section id is known: none when its URL has no
      hostname. */
  function FavoritoPedido(l: Linha, sid: Id, o: Respostas): seq<NovoFavorito>
    requires Aceita(l)
  {
    match o.hostname(AlvoFavicon(l.url.value))
    case None => []
    case Some(host) => [NovoFavorito(l.nome.value, l.url.value, sid, FaviconUrl(host))]
  }

  /** Lines 118-124 on the store: the hostname is resolved, then `adicionarFavorito` is called. */
  method EnviarLinha(store: Store, l: Linha, sid: Id, i: nat, o: Respostas,
                     ghost mapa: map<string, Id>, ghost sp: seq<NovaSecao>, ghost fp: seq<NovoFavorito>)
    requires Aceita(l)
    requires store.Valid()
    modifies store
    ensures store.Valid()
    ensures Estado(store, mapa, sp, fp + FavoritoPedido(l, sid, o))
      == Enviar(old(Estado(store, mapa, sp, fp)), l, sid, i, o)
    ensures store.secoesFechadas == old(store.secoesFechadas) && store.termoPesquisa == old(store.termoPesquisa)
  {
    var host := o.hostname(AlvoFavicon(l.url.value));
    if host.Some? {
      var novo := NovoFavorito(l.nome.value, l.url.value, sid, FaviconUrl(host.value));
      var _, _ := store.AdicionarFavorito(novo, o.favorito(i));
    }
  }

  /** The file the dialog was given: none, one the reader cannot start on, one whose contents are
      not a workbook, or a workbook with its sheets. */
  datatype Arquivo = NaoSelecionado | Inacessivel | Ilegivel | Planilha(folhas: map<string, seq<Linha>>)

  /** `importarDados()`: warns when no file is chosen, reports a reader that cannot start and a
      file that is not a workbook, rejects a workbook without a "Favoritos" sheet, otherwise runs the loop, announces success and reloads from the tables
      (`secoesLidas`, `favoritosLidos` are what the reload reads). */
  method Importar(store: Store, arquivo: Arquivo, o: Respostas, secoesLidas: seq<Secao>, favoritosLidos: seq<Favorito>)
    returns (secoesPedidas: seq<NovaSecao>, favoritosPedidos: seq<NovoFavorito>)
    requires store.Valid()
    modifies store
    ensures store.Valid()
    ensures arquivo.NaoSelecionado? ==> (secoesPedidas == [] && favoritosPedidos == []
      && store.secoes == old(store.secoes) && store.favoritos == old(store.favoritos)
      && store.toasts == Announce(old(store.toasts), old(store.HasData()), WARNING, SELECIONE, old(store.nextToastId)))
    ensures arquivo.Inacessivel? ==> (secoesPedidas == [] && favoritosPedidos == []
      && store.secoes == old(store.secoes) && store.favoritos == old(store.favoritos)
      && store.toasts == Announce(old(store.toasts), old(store.HasData()), ERROR, ERRO_IMPORTAR, old(store.nextToastId)))
    ensures arquivo.Ilegivel? ==> (secoesPedidas == [] && favoritosPedidos == []
      && store.secoes == old(store.secoes) && store.favoritos == old(store.favoritos)
      && store.toasts == Announce(old(store.toasts), old(store.HasData()), ERROR, ERRO_PROCESSAR, old(store.nextToastId)))
    ensures arquivo.Planilha? && FOLHA !in arquivo.folhas ==> (secoesPedidas == [] && favoritosPedidos == []
      && store.secoes == old(store.secoes) && store.favoritos == old(store.favoritos)
      && store.toasts == Announce(old(store.toasts), old(store.HasData()), ERROR, FORMATO_INVALIDO, old(store.nextToastId)))
    ensures arquivo.Planilha? && FOLHA in arquivo.folhas ==>
      var r := Processar(Inicio(old(store.secoes), old(store.favoritos), old(store.toasts), old(store.nextToastId)),
                         arquivo.folhas[FOLHA], o);
      var feito := Avisar(r, SUCCESS, IMPORTADOS);
      secoesPedidas == r.secoesPedidas && favoritosPedidos == r.favoritosPedidos
      && store.secoes == secoesLidas && store.favoritos == favoritosLidos
      && store.toasts == Announce(feito.toasts, feito.secoes != [] || feito.favoritos != [], SUCCESS, CARREGADOS, feito.proximo)
    ensures store.secoesFechadas == old(store.secoesFechadas) && store.termoPesquisa == old(store.termoPesquisa)
  {
    match arquivo
    case NaoSelecionado =>
      store.AdicionarToast(WARNING, SELECIONE);
      secoesPedidas, favoritosPedidos := [], [];
    case Inacessivel =>
      store.AdicionarToast(ERROR, ERRO_IMPORTAR);
      secoesPedidas, favoritosPedidos := [], [];
    case Ilegivel =>
      store.AdicionarToast(ERROR, ERRO_PROCESSAR);
      secoesPedidas, favoritosPedidos := [], [];
    case Planilha(folhas) =>
      if FOLHA !in folhas {
        store.AdicionarToast(ERROR, FORMATO_INVALIDO);
        secoesPedidas, favoritosPedidos := [], [];
      } else {
        secoesPedidas, favoritosPedidos := ImportarLinhas(store, folhas[FOLHA], o);
        store.AdicionarToast(SUCCESS, IMPORTADOS);
        store.CarregarDados(secoesLidas, favoritosLidos);
      }
  }
}
