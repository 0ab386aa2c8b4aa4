/** The two batched upserts that persist a new order. Each payload is built with
    `map((x, index) => ...)`: the rank written is the record's index in the whole argument. The
    network call itself is the remote store's business; the store models its outcome. */
module Supabase {
  import opened Seqs
  import opened Records
  import opened Ordering

  /** One element of the `secoes` upsert. */
  datatype SecaoOrdem = SecaoOrdem(id: Id, titulo: string, corFundo: string, corTexto: string, ordem: int)

  /** One element of the `favoritos` upsert. */
  datatype FavoritoOrdem = FavoritoOrdem(id: Id, ordem: int, secaoId: Id)

  /** The payload of `atualizarOrdemSecoes`. */
  function PayloadSecoes(secoes: seq<Secao>): (rows: seq<SecaoOrdem>)
    ensures |rows| == |secoes|
    ensures forall i :: 0 <= i < |rows| ==>
      && rows[i].id == secoes[i].id
      && rows[i].titulo == secoes[i].titulo
      && rows[i].corFundo == secoes[i].corFundo
      && rows[i].corTexto == secoes[i].corTexto
      && rows[i].ordem == i
  {
    seq(|secoes|, i requires 0 <= i < |secoes| =>
      SecaoOrdem(secoes[i].id, secoes[i].titulo, secoes[i].corFundo, secoes[i].corTexto, i))
  }

  /** The ranks a section payload writes. */
  function SecaoRanks(rows: seq<SecaoOrdem>): set<int>
  {
    set i | 0 <= i < |rows| :: rows[i].ordem
  }

  /** The section ranks written are 0 .. n-1, each exactly once. */
  lemma PayloadSecoesDense(secoes: seq<Secao>)
    ensures forall k :: k in SecaoRanks(PayloadSecoes(secoes)) <==> 0 <= k < |secoes|
    ensures forall i, j :: 0 <= i < j < |secoes| ==> PayloadSecoes(secoes)[i].ordem != PayloadSecoes(secoes)[j].ordem
  {
    var rows := PayloadSecoes(secoes);
    forall k | 0 <= k < |secoes| ensures k in SecaoRanks(rows) {
      assert rows[k].ordem == k;
    }
  }

  /** The payload of `atualizarOrdemFavoritos`. */
  function PayloadFavoritos(favoritos: seq<Favorito>): (rows: seq<FavoritoOrdem>)
    ensures |rows| == |favoritos|
    ensures forall i :: 0 <= i < |rows| ==>
      rows[i].id == favoritos[i].id && rows[i].secaoId == favoritos[i].secaoId && rows[i].ordem == i
  {
    seq(|favoritos|, i requires 0 <= i < |favoritos| =>
      FavoritoOrdem(favoritos[i].id, i, favoritos[i].secaoId))
  }

  /** `xs` with ranks `from`, `from + 1`, ... in list order. */
  function Ranked(xs: seq<Favorito>, from: int): (r: seq<Favorito>)
    ensures |r| == |xs|
    ensures forall i :: 0 <= i < |xs| ==> r[i] == xs[i].(ordem := from + i)
    decreases |xs|
  {
    if xs == [] then [] else [xs[0].(ordem := from)] + Ranked(xs[1..], from + 1)
  }

  /** The favorites of `xs` as the table holds them once the upsert has landed: every column of
      each record as before, except the `ordem` and `secao_id` the payload writes. */
  function Persisted(xs: seq<Favorito>): (r: seq<Favorito>)
    ensures |r| == |xs|
    ensures forall i :: 0 <= i < |xs| ==>
      var row := PayloadFavoritos(xs)[i];
      r[i] == xs[i].(ordem := row.ordem, secaoId := row.secaoId)
  {
    Ranked(xs, 0)
  }

  /** After a cross-section move the argument is source ++ destination, and the destination's
      ranks start at |source|: ranks are positions in the whole argument, not per section. */
  lemma CrossSectionRanks(source: seq<Favorito>, destination: seq<Favorito>, j: nat)
    requires j < |destination|
    ensures PayloadFavoritos(source + destination)[|source| + j].ordem == |source| + j
    ensures PayloadFavoritos(source + destination)[|source| + j].id == destination[j].id
  {
  }

  /** The favorites of one section in a ranked list carry the ids of that section's favorites in
      the unranked list, in the same order. */
  lemma {:induction false} RankedSectionIds(xs: seq<Favorito>, from: int, s: Id)
    ensures IdSeq(OfSection(Ranked(xs, from), s)) == IdSeq(OfSection(xs, s))
    decreases |xs|
  {
    if xs != [] {
      var r := Ranked(xs, from);
      RankedSectionIds(xs[1..], from + 1, s);
      assert r[1..] == Ranked(xs[1..], from + 1);
      var a, b := OfSection(r[1..], s), OfSection(xs[1..], s);
      if xs[0].secaoId == s {
        assert OfSection(r, s) == [r[0]] + a;
        assert OfSection(xs, s) == [xs[0]] + b;
        assert IdSeq([r[0]] + a) == [r[0].id] + IdSeq(a);
        assert IdSeq([xs[0]] + b) == [xs[0].id] + IdSeq(b);
      } else {
        assert OfSection(r, s) == a && OfSection(xs, s) == b;
      }
    }
  }

  /** Reading one section back from the table and sorting it by the new ranks (what
      `getFavoritosPorSecao` does after a reload) gives that section's favorites in the order they
      had in the argument, even though the ranks are not zero-based per section. */
  lemma PersistedSectionOrder(xs: seq<Favorito>, s: Id)
    ensures SortByOrdem(OfSection(Persisted(xs), s)) == OfSection(Persisted(xs), s)
    ensures IdSeq(OfSection(Persisted(xs), s)) == IdSeq(OfSection(xs, s))
  {
    assert Sorted(Persisted(xs));
    FilterSorted(Persisted(xs), InSecao(s));
    SortedUnchanged(OfSection(Persisted(xs), s));
    RankedSectionIds(xs, 0, s);
  }
}
