/** The favorite form: its fields, the pre-fill from the favorite being edited, the URL handler
    that derives a title and a favicon preview from the domain, and the submit handler that
    validates, normalises the URL, builds the favicon address and dispatches to the store. */
module FormFavorito {
  import opened Text
  import opened Records
  import opened Toasts
  import opened FavoritosContext

  /** `https://` is put in front unless the URL already starts with `http://` or `https://`. */
  function Normalizar(url: string): (r: string)
    ensures StartsWith(url, "http://") || StartsWith(url, "https://") ==> r == url
    ensures !StartsWith(url, "http://") && !StartsWith(url, "https://") ==> r == "https://" + url
    ensures StartsWith(r, "http://") || StartsWith(r, "https://")
  {
    if !StartsWith(url, "http://") && !StartsWith(url, "https://") then
      assert ("https://" + url)[..8] == "https://";
      "https://" + url
    else url
  }

  /** Normalising a normalised URL changes nothing. */
  lemma NormalizarIdempotente(url: string)
    ensures Normalizar(Normalizar(url)) == Normalizar(url)
  {
  }

  /** The title derived from a hostname: a leading "www." dropped, cut at the first '.', and the
      first character uppercased. */
  function NomeDoSite(host: string): string
  {
    Capitalize(FirstLabel(StripWww(host)))
  }

  /** The derived title is the first label of the host (after "www."), character by character,
      with only its first character uppercased: it contains no '.' after the first character and
      stops at the first '.' or at the end of the host. */
  lemma {:induction false} NomeDoSiteSpec(host: string)
    ensures var h := StripWww(host); var r := NomeDoSite(host);
      |r| <= |h|
      && (|r| > 0 ==> h[0] != '.' && r[0] == Upper(h[0]))
      && (forall j :: 1 <= j < |r| ==> r[j] == h[j] && h[j] != '.')
      && (|r| < |h| ==> h[|r|] == '.')
  {
    var h := StripWww(host);
    var rotulo := FirstLabel(h);
    var r := NomeDoSite(host);
    assert h[..|rotulo|] == rotulo;
    if |r| > 0 {
      assert rotulo[0] == h[0];
      assert rotulo[0] in rotulo;
    }
    forall j | 1 <= j < |r| ensures r[j] == h[j] && h[j] != '.' {
      assert r[1..] == rotulo[1..];
      assert r[j] == r[1..][j - 1] == rotulo[j];
      assert rotulo[j] == h[..|rotulo|][j];
      assert rotulo[j] in rotulo;
    }
  }

  /** An example: "www.google.com" gives "Google". */
  lemma NomeDoSiteExemplo()
    ensures NomeDoSite("www.google.com") == "Google"
  {
    SemWwwExemplo();
    RotuloExemplo();
    MaiusculaExemplo();
  }

  lemma SemWwwExemplo()
    ensures StripWww("www.google.com") == "google.com"
  {
    var h := "www.google.com";
    assert h[..4] == "www." && h[4..] == "google.com";
  }

  lemma MaiusculaExemplo()
    ensures Capitalize("google") == "Google"
  {
    assert Upper('g') == 'G';
    assert "google"[1..] == "oogle";
  }

  lemma RotuloExemplo()
    ensures FirstLabel("google.com") == "google"
  {
    RotuloExemploFim();
    assert "gle.com"[1..] == "le.com";
    assert FirstLabel("gle.com") == "gle";
    assert "ogle.com"[1..] == "gle.com";
    assert FirstLabel("ogle.com") == "ogle";
    assert "oogle.com"[1..] == "ogle.com";
    assert FirstLabel("oogle.com") == "oogle";
    assert "google.com"[1..] == "oogle.com";
  }

  lemma RotuloExemploFim()
    ensures FirstLabel("le.com") == "le"
  {
    assert FirstLabel(".com") == [];
    assert "e.com"[1..] == ".com";
    assert FirstLabel("e.com") == "e";
    assert "le.com"[1..] == "e.com";
  }

  /** Title, URL and section are all filled in. */
  predicate Preenchido(titulo: string, url: string, secao: string)
  {
    titulo != "" && url != "" && secao != ""
  }

  /** What a submit did. */
  datatype Envio =
    | Ignorado
    | UrlInvalida
    | Criado(dados: NovoFavorito)
    | Atualizado(id: Id, dados: NovoFavorito)

  /** The fields `handleSubmit` sends: the title, the normalised URL, the selected section and
      the favicon address of the URL's host. */
  function DadosDoEnvio(titulo: string, url: string, secao: Id, host: string): (d: NovoFavorito)
    ensures d.titulo == titulo && d.secaoId == secao
    ensures StartsWith(d.url, "http://") || StartsWith(d.url, "https://")
    ensures |d.favicon| == |host| + 48
    ensures d.favicon[..42] == "https://www.google.com/s2/favicons?domain=" && d.favicon[42..|d.favicon| - 6] == host
    ensures d.favicon[|d.favicon| - 6..] == "&sz=64"
  {
    NovoFavorito(titulo, Normalizar(url), secao, FaviconUrl(host))
  }

  class Formulario {
    var titulo: string
    var url: string
    var secaoSelecionada: string
    var favicon: string
    var carregando: bool
    /** The `favorito` prop: the favorite being edited, if any. */
    const editando: Option<Favorito>

    /** The state after the pre-fill effect (lines 18-27): the edited favorite's fields, or the
        `secaoId` prop as the selected section. */
    constructor (favorito: Option<Favorito>, secaoId: string)
      ensures editando == favorito && !carregando
      ensures favorito.Some? ==> (titulo == favorito.value.titulo && url == favorito.value.url
        && secaoSelecionada == favorito.value.secaoId && favicon == favorito.value.favicon)
      ensures favorito.None? ==> titulo == "" && url == "" && favicon == "" && secaoSelecionada == secaoId
    {
      editando := favorito;
      carregando := false;
      match favorito
      case Some(f) =>
        titulo, url, secaoSelecionada, favicon := f.titulo, f.url, f.secaoId, f.favicon;
      case None =>
        titulo, url, favicon := "", "", "";
        secaoSelecionada := secaoId;
    }

    /** The submit button is disabled while a field is empty or a save is running. */
    function BotaoDesabilitado(): (r: bool)
      reads this
      ensures r <==> !Preenchido(titulo, url, secaoSelecionada) || carregando
    {
      titulo == "" || url == "" || secaoSelecionada == "" || carregando
    }

    /** `handleUrlChange`: the URL is replaced; an empty title is derived from the domain when the
        new URL is non-empty and has a hostname; the favicon preview follows the new URL's host,
        stays when that URL has no hostname, and is cleared when the URL is empty. */
    method MudarUrl(novaUrl: string, hostname: string -> Option<string>)
      modifies this
      ensures url == novaUrl
      ensures old(titulo) == "" && novaUrl != "" && hostname(Normalizar(novaUrl)).Some? ==>
        titulo == NomeDoSite(hostname(Normalizar(novaUrl)).value)
      ensures !(old(titulo) == "" && novaUrl != "" && hostname(Normalizar(novaUrl)).Some?) ==> titulo == old(titulo)
      ensures novaUrl == "" ==> favicon == ""
      ensures novaUrl != "" && hostname(Normalizar(novaUrl)).Some? ==>
        favicon == FaviconUrl(hostname(Normalizar(novaUrl)).value)
      ensures novaUrl != "" && hostname(Normalizar(novaUrl)).None? ==> favicon == old(favicon)
      ensures secaoSelecionada == old(secaoSelecionada) && carregando == old(carregando)
    {
      url := novaUrl;
      if titulo == "" && novaUrl != "" {
        var dominio := hostname(Normalizar(novaUrl));
        if dominio.Some? {
          titulo := NomeDoSite(dominio.value);
        }
      }
      if novaUrl != "" {
        var dominio := hostname(Normalizar(novaUrl));
        if dominio.Some? {
          favicon := FaviconUrl(dominio.value);
        }
      } else {
        favicon := "";
      }
    }

    /** `handleSubmit`: nothing happens unless every field is filled in; a normalised URL without
        a hostname ends the submit before any store call; otherwise the fields go to
        `atualizarFavorito` when editing and to `adicionarFavorito` when not. A rejection from the
        store is caught here; the form fields are left as they were and `carregando` ends false. */
    method Enviar(store: Store, hostname: string -> Option<string>, remote: Remote<Favorito>) returns (envio: Envio)
      requires store.Valid()
      modifies this, store
      ensures store.Valid()
      ensures titulo == old(titulo) && url == old(url) && secaoSelecionada == old(secaoSelecionada)
      ensures favicon == old(favicon)
      ensures !old(Preenchido(titulo, url, secaoSelecionada)) ==> (envio == Ignorado && carregando == old(carregando)
        && store.favoritos == old(store.favoritos) && store.toasts == old(store.toasts))
      ensures old(Preenchido(titulo, url, secaoSelecionada)) ==> !carregando
      ensures old(Preenchido(titulo, url, secaoSelecionada)) && hostname(Normalizar(old(url))).None? ==>
        (envio == UrlInvalida && store.favoritos == old(store.favoritos) && store.toasts == old(store.toasts))
      ensures envio.Criado? ==> (editando.None? && old(Preenchido(titulo, url, secaoSelecionada))
        && hostname(Normalizar(old(url))).Some?
        && envio.dados == DadosDoEnvio(old(titulo), old(url), envio.dados.secaoId, hostname(Normalizar(old(url))).value)
        && envio.dados.secaoId == old(secaoSelecionada)
        && store.favoritos == (if remote.Stored? then old(store.favoritos) + [remote.value] else old(store.favoritos)))
      ensures envio.Atualizado? ==> (editando.Some? && envio.id == editando.value.id
        && old(Preenchido(titulo, url, secaoSelecionada)) && hostname(Normalizar(old(url))).Some?
        && envio.dados == DadosDoEnvio(old(titulo), old(url), envio.dados.secaoId, hostname(Normalizar(old(url))).value)
        && envio.dados.secaoId == old(secaoSelecionada)
        && store.favoritos == (if remote.Stored? then ComFavorito(old(store.favoritos), envio.id, remote.value) else old(store.favoritos)))
      ensures old(Preenchido(titulo, url, secaoSelecionada)) && hostname(Normalizar(old(url))).Some? ==>
        (if editando.Some? then envio.Atualizado? else envio.Criado?)
      ensures envio.Criado? ==> store.toasts == (if remote.Stored?
        then Announce(old(store.toasts), store.HasData(), SUCCESS, FAVORITO_ADICIONADO, old(store.nextToastId))
        else Announce(old(store.toasts), store.HasData(), ERROR, ERRO_ADICIONAR_FAVORITO, old(store.nextToastId)))
      ensures envio.Atualizado? ==> store.toasts == (if remote.Stored?
        then Announce(old(store.toasts), store.HasData(), SUCCESS, FAVORITO_ATUALIZADO, old(store.nextToastId))
        else Announce(old(store.toasts), store.HasData(), ERROR, ERRO_ATUALIZAR_FAVORITO, old(store.nextToastId)))
      ensures store.nextToastId == if store.toasts == old(store.toasts) then old(store.nextToastId) else old(store.nextToastId) + 1
      ensures store.secoes == old(store.secoes)
      ensures store.secoesFechadas == old(store.secoesFechadas) && store.termoPesquisa == old(store.termoPesquisa)
    {
      if titulo == "" || url == "" || secaoSelecionada == "" {
        return Ignorado;
      }
      var urlFormatada := Normalizar(url);
      carregando := true;
      var dominio := hostname(urlFormatada);
      if dominio.None? {
        carregando := false;
        return UrlInvalida;
      }
      var secao: Id := secaoSelecionada;
      var dados := DadosDoEnvio(titulo, url, secao, dominio.value);
      match editando {
        case Some(f) =>
          var _ := store.AtualizarFavorito(f.id, dados, remote);
          envio := Atualizado(f.id, dados);
        case None =>
          var _, _ := store.AdicionarFavorito(dados, remote);
          envio := Criado(dados);
      }
      carregando := false;
    }
  }
}
