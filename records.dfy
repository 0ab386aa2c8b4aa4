/** The records the application keeps: rows of the `secoes` and `favoritos` tables, the values
    callers hand to the store to create them, and the outcome of a remote table call. */
module Records {

  /** A table row id (a uuid string assigned by the remote store); never empty, so never falsy. */
  type Id = s: string | |s| > 0 witness "id"

  datatype Option<T> = None | Some(value: T)

  /** What a remote table call does: it stores the request (returning the stored row) or it is rejected. */
  datatype Remote<T> = Stored(value: T) | Rejected

  /** What a store mutator does for its caller: it returns a value or it throws. */
  datatype Reply<T> = Returned(value: T) | Thrown

  /** A row of `secoes`. */
  datatype Secao = Secao(id: Id, titulo: string, corFundo: string, corTexto: string, ordem: int)

  /** A row of `favoritos`; `secaoId` names the section the favorite belongs to. */
  datatype Favorito = Favorito(id: Id, titulo: string, url: string, secaoId: Id, ordem: int, favicon: string)

  /** The fields a caller supplies to create a section. */
  datatype NovaSecao = NovaSecao(titulo: string, corFundo: string, corTexto: string)

  /** The fields a caller supplies to create or update a favorite. */
  datatype NovoFavorito = NovoFavorito(titulo: string, url: string, secaoId: Id, favicon: string)

  /** The predicate `f => f.secao_id === s`. */
  function InSecao(s: Id): Favorito -> bool
  {
    (f: Favorito) => f.secaoId == s
  }

  /** Ids occurring in a list of favorites. */
  function IdsOf(fs: seq<Favorito>): (r: set<Id>)
    ensures forall i :: 0 <= i < |fs| ==> fs[i].id in r
    ensures forall x :: x in r ==> exists i :: 0 <= i < |fs| && fs[i].id == x
  {
    set i | 0 <= i < |fs| :: fs[i].id
  }

  /** The ids of a list of favorites, in order. */
  function IdSeq(fs: seq<Favorito>): (r: seq<Id>)
    ensures |r| == |fs|
    ensures forall i :: 0 <= i < |fs| ==> r[i] == fs[i].id
  {
    seq(|fs|, i requires 0 <= i < |fs| => fs[i].id)
  }

  /** No two favorites in the list share an id. */
  predicate UniqueIds(fs: seq<Favorito>)
  {
    forall i, j :: 0 <= i < j < |fs| ==> fs[i].id != fs[j].id
  }

  /** The favicon-service address stored for a favorite whose host is `host`. */
  function FaviconUrl(host: string): (r: string)
    ensures |r| == |host| + 48
    ensures r[..42] == "https://www.google.com/s2/favicons?domain=" && r[42..|r| - 6] == host && r[|r| - 6..] == "&sz=64"
  {
    "https://www.google.com/s2/favicons?domain=" + host + "&sz=64"
  }
}
