/** The SQLite file estoque.db holding the table `produtos` (schema at main.py:40-47), and
    the statements main.py runs against it through `executar_sql`, each given as the
    outcome it has on the database it runs on. */
module Sql {

  /** Largest value of an SQLite INTEGER, hence the largest id AUTOINCREMENT can assign. */
  const MaiorInteiro: int := 9223372036854775807

  /** The non-key columns of one row: nome, quantidade, preco. */
  datatype Produto = Produto(nome: string, quantidade: int, preco: real)

  /** A row as `SELECT *` returns it: (id, nome, quantidade, preco). */
  datatype Linha = Linha(id: int, nome: string, quantidade: int, preco: real)

  function LinhaDe(id: int, p: Produto): Linha {
    Linha(id, p.nome, p.quantidade, p.preco)
  }

  /** The database file: whether the table `produtos` exists, its rows keyed by the
      primary key `id`, and the value sqlite_sequence keeps for the table (the largest
      id AUTOINCREMENT has ever assigned in it). */
  datatype Banco = Banco(existe: bool, produtos: map<int, Produto>, sequencia: int)

  /** The DatabaseErrors the statements raise in this model. */
  datatype Erro =
    | TabelaInexistente   // "no such table: produtos"
    | BancoCheio          // SQLITE_FULL: AUTOINCREMENT has no id left to assign
    | NomeDuplicado       // IntegrityError: "UNIQUE constraint failed: produtos.nome"

  datatype Resultado<T> = Ok(valor: T) | Falha(erro: Erro)

  /** What a committed write leaves: the new database and the cursor's rowcount. */
  datatype Escrita = Escrita(banco: Banco, linhasAfetadas: nat)

  predicate NomeEmUso(produtos: map<int, Produto>, nome: string) {
    exists id | id in produtos :: produtos[id].nome == nome
  }

  /** What the schema and AUTOINCREMENT guarantee of every state of the file: ids are
      keys (unique by construction), lie in [1, sequencia], names are UNIQUE, and a file
      without the table holds no rows and no sequence. */
  ghost predicate Valido(b: Banco) {
    && 0 <= b.sequencia <= MaiorInteiro
    && (!b.existe ==> b.produtos == map[] && b.sequencia == 0)
    && (forall id | id in b.produtos :: 1 <= id <= b.sequencia)
    && (forall i, j | i in b.produtos && j in b.produtos && i != j ::
          b.produtos[i].nome != b.produtos[j].nome)
  }

  /** The id AUTOINCREMENT assigns to the next inserted row. */
  function ProximoId(b: Banco): int {
    b.sequencia + 1
  }

  /** `depois` is `antes` with exactly one more row, `p`, under the fresh id `id`. */
  ghost predicate Acrescenta(antes: Banco, depois: Banco, id: int, p: Produto) {
    && depois.existe == antes.existe
    && id !in antes.produtos
    && depois.produtos.Keys == antes.produtos.Keys + {id}
    && depois.produtos[id] == p
    && (forall k | k in antes.produtos :: depois.produtos[k] == antes.produtos[k])
  }

  /** `depois` is `antes` with the quantidade and preco of row `id` (if any) replaced,
      every id, every nome and every other row kept. */
  ghost predicate Regrava(antes: Banco, depois: Banco, id: int, quantidade: int, preco: real) {
    && depois.existe == antes.existe
    && depois.sequencia == antes.sequencia
    && depois.produtos.Keys == antes.produtos.Keys
    && (forall k | k in antes.produtos :: depois.produtos[k].nome == antes.produtos[k].nome)
    && (id in antes.produtos ==>
          depois.produtos[id].quantidade == quantidade && depois.produtos[id].preco == preco)
    && (forall k | k in antes.produtos && k != id :: depois.produtos[k] == antes.produtos[k])
  }

  /** `depois` is `antes` without row `id` (if any), every other row kept. */
  ghost predicate Retira(antes: Banco, depois: Banco, id: int) {
    && depois.existe == antes.existe
    && depois.sequencia == antes.sequencia
    && depois.produtos.Keys == antes.produtos.Keys - {id}
    && (forall k | k in depois.produtos :: depois.produtos[k] == antes.produtos[k])
  }

  /** CREATE TABLE IF NOT EXISTS produtos (...): creates the empty table, and leaves a
      file that already has it untouched. */
  function CriarTabela(b: Banco): (r: Banco)
    ensures r.existe
    ensures b.existe ==> r == b
    ensures Valido(b) ==> Valido(r)
    ensures Valido(b) && !b.existe ==> r.produtos == map[] && r.sequencia == 0
  {
    b.(existe := true)
  }

  /** INSERT INTO produtos (nome, quantidade, preco) VALUES (?, ?, ?). */
  function Inserir(b: Banco, nome: string, quantidade: int, preco: real): (r: Resultado<Escrita>)
    ensures r.Ok? <==> b.existe && b.sequencia < MaiorInteiro && !NomeEmUso(b.produtos, nome)
    ensures !b.existe ==> r == Falha(TabelaInexistente)
    ensures b.existe && b.sequencia >= MaiorInteiro ==> r == Falha(BancoCheio)
    ensures r.Falha? && b.existe && b.sequencia < MaiorInteiro ==> r.erro == NomeDuplicado
    ensures r.Ok? ==> r.valor.linhasAfetadas == 1 && r.valor.banco.sequencia == ProximoId(b)
    ensures r.Ok? && Valido(b) ==>
      && Valido(r.valor.banco)
      && Acrescenta(b, r.valor.banco, ProximoId(b), Produto(nome, quantidade, preco))
  {
    if !b.existe then Falha(TabelaInexistente)
    else if b.sequencia >= MaiorInteiro then Falha(BancoCheio)
    else if NomeEmUso(b.produtos, nome) then Falha(NomeDuplicado)
    else
      var id := ProximoId(b);
      Ok(Escrita(b.(produtos := b.produtos[id := Produto(nome, quantidade, preco)], sequencia := id), 1))
  }

  /** SELECT * FROM produtos WHERE id = ?: the row with that key, if there is one. */
  function SelecionarPorId(b: Banco, id: int): (r: Resultado<seq<Linha>>)
    ensures r.Falha? <==> !b.existe
    ensures r.Ok? ==> |r.valor| <= 1
    ensures r.Ok? ==> (r.valor != [] <==> id in b.produtos)
    ensures r.Ok? ==> forall l | l in r.valor :: l.id == id && id in b.produtos && l == LinhaDe(id, b.produtos[id])
  {
    if !b.existe then Falha(TabelaInexistente)
    else if id in b.produtos then Ok([LinhaDe(id, b.produtos[id])])
    else Ok([])
  }

  /** UPDATE produtos SET quantidade = ?, preco = ? WHERE id = ?. */
  function AtualizarLinha(b: Banco, id: int, quantidade: int, preco: real): (r: Resultado<Escrita>)
    ensures r.Falha? <==> !b.existe
    ensures r.Ok? ==> Regrava(b, r.valor.banco, id, quantidade, preco)
    ensures r.Ok? ==> (r.valor.linhasAfetadas > 0 <==> id in b.produtos) && r.valor.linhasAfetadas <= 1
    ensures r.Ok? && Valido(b) ==> Valido(r.valor.banco)
  {
    if !b.existe then Falha(TabelaInexistente)
    else if id in b.produtos then
      var p := b.produtos[id];
      Ok(Escrita(b.(produtos := b.produtos[id := p.(quantidade := quantidade, preco := preco)]), 1))
    else Ok(Escrita(b, 0))
  }

  /** DELETE FROM produtos WHERE id = ?. The sequence is kept, so a removed id is never
      handed out again. */
  function Excluir(b: Banco, id: int): (r: Resultado<Escrita>)
    ensures r.Falha? <==> !b.existe
    ensures r.Ok? ==> Retira(b, r.valor.banco, id)
    ensures r.Ok? ==> r.valor.linhasAfetadas == |b.produtos| - |r.valor.banco.produtos|
    ensures r.Ok? ==> (r.valor.linhasAfetadas > 0 <==> id in b.produtos)
    ensures r.Ok? && Valido(b) ==> Valido(r.valor.banco)
  {
    if !b.existe then Falha(TabelaInexistente)
    else
      var resto := b.produtos - {id};
      assert id in b.produtos ==> b.produtos.Keys == resto.Keys + {id};
      Ok(Escrita(b.(produtos := resto), if id in b.produtos then 1 else 0))
  }

  /** Ids of `linhas` strictly increase: the order of a full scan of a rowid table. */
  ghost predicate EmOrdemDeId(linhas: seq<Linha>) {
    forall i, j | 0 <= i < j < |linhas| :: linhas[i].id < linhas[j].id
  }

  /** `linhas` is what SELECT * FROM produtos fetches from `produtos`: every row once,
      nothing else, in id order. */
  ghost predicate Listagem(produtos: map<int, Produto>, linhas: seq<Linha>) {
    && EmOrdemDeId(linhas)
    && (forall l | l in linhas :: l.id in produtos && l == LinhaDe(l.id, produtos[l.id]))
    && (forall id | id in produtos :: LinhaDe(id, produtos[id]) in linhas)
  }

  /** Some element of a non-empty set of ids. */
  lemma AlgumId(s: set<int>) returns (x: int)
    requires s != {}
    ensures x in s
  {
    if forall y :: y !in s {
      assert false;
    }
    x :| x in s;
  }

  /** Every non-empty finite set of ids has a least element. */
  lemma {:induction false} MenorExiste(s: set<int>)
    requires s != {}
    ensures exists m | m in s :: forall k | k in s :: m <= k
  {
    var x := AlgumId(s);
    var resto := s - {x};
    if resto == {} {
      assert s == {x};
      assert forall k | k in s :: x <= k;
    } else {
      MenorExiste(resto);
      var m :| m in resto && forall k | k in resto :: m <= k;
      var menor := if x < m then x else m;
      assert menor in s;
      forall k | k in s ensures menor <= k {
        if k != x { assert k in resto; }
      }
    }
  }

  /** SELECT * FROM produtos, fetched with fetchall(): the rows are taken off the table
      one at a time, least id first. */
  method SelecionarTodos(b: Banco) returns (r: Resultado<seq<Linha>>)
    ensures r.Falha? <==> !b.existe
    ensures r.Falha? ==> r.erro == TabelaInexistente
    ensures r.Ok? ==> Listagem(b.produtos, r.valor)
  {
    if !b.existe {
      return Falha(TabelaInexistente);
    }
    var restantes := b.produtos.Keys;
    var linhas: seq<Linha> := [];
    while restantes != {}
      invariant restantes <= b.produtos.Keys
      invariant EmOrdemDeId(linhas)
      invariant forall l | l in linhas ::
        l.id in b.produtos && l.id !in restantes && l == LinhaDe(l.id, b.produtos[l.id])
      invariant forall id | id in b.produtos && id !in restantes :: LinhaDe(id, b.produtos[id]) in linhas
      invariant forall i, id | 0 <= i < |linhas| && id in restantes :: linhas[i].id < id
      decreases restantes
    {
      MenorExiste(restantes);
      var id :| id in restantes && forall k | k in restantes :: id <= k;
      linhas := linhas + [LinhaDe(id, b.produtos[id])];
      restantes := restantes - {id};
    }
    return Ok(linhas);
  }

  /** The rows of a table determine its listing: two listings of the same rows are equal. */
  lemma {:induction false} ListagemUnica(produtos: map<int, Produto>, a: seq<Linha>, b: seq<Linha>)
    requires Listagem(produtos, a) && Listagem(produtos, b)
    ensures a == b
    decreases |a|
  {
    if b != [] {
      assert b[0] in b;
      assert LinhaDe(b[0].id, produtos[b[0].id]) in a;
    }
    if a != [] {
      assert a[0] in a;
      assert LinhaDe(a[0].id, produtos[a[0].id]) in b;
      assert b[0] in b;
      var id := a[0].id;
      PrimeiroEhMenor(produtos, a, b[0].id);
      PrimeiroEhMenor(produtos, b, id);
      var resto := produtos - {id};
      ListagemDoResto(produtos, a, resto);
      ListagemDoResto(produtos, b, resto);
      ListagemUnica(resto, a[1..], b[1..]);
    }
  }

  /** The first row of a listing has the least id of the table. */
  lemma PrimeiroEhMenor(produtos: map<int, Produto>, linhas: seq<Linha>, id: int)
    requires Listagem(produtos, linhas) && linhas != [] && id in produtos
    ensures linhas[0].id <= id
  {
    assert LinhaDe(id, produtos[id]) in linhas;
    var j :| 0 <= j < |linhas| && linhas[j] == LinhaDe(id, produtos[id]);
    if j > 0 {
      assert linhas[0].id < linhas[j].id;
    }
  }

  /** Dropping the first row of a listing lists the table without that row. */
  lemma ListagemDoResto(produtos: map<int, Produto>, linhas: seq<Linha>, resto: map<int, Produto>)
    requires Listagem(produtos, linhas) && linhas != []
    requires resto == produtos - {linhas[0].id}
    ensures Listagem(resto, linhas[1..])
  {
    var cauda := linhas[1..];
    forall l | l in cauda
      ensures l.id in resto && l == LinhaDe(l.id, resto[l.id])
    {
      var j :| 0 <= j < |cauda| && cauda[j] == l;
      assert linhas[j + 1] == l;
      assert linhas[0].id < l.id;
    }
    forall id | id in resto
      ensures LinhaDe(id, resto[id]) in cauda
    {
      var j :| 0 <= j < |linhas| && linhas[j] == LinhaDe(id, produtos[id]);
      assert j != 0;
      assert cauda[j - 1] == linhas[j];
    }
  }

  /** `linhas` with quantidade and preco of the row with id `id` replaced. */
  function Regravadas(linhas: seq<Linha>, id: int, quantidade: int, preco: real): (r: seq<Linha>)
    ensures |r| == |linhas|
  {
    seq(|linhas|, i requires 0 <= i < |linhas| =>
      if linhas[i].id == id then linhas[i].(quantidade := quantidade, preco := preco) else linhas[i])
  }

  /** After an UPDATE the listing is the old listing with that one row rewritten in place. */
  lemma ListagemAposRegrava(antes: Banco, depois: Banco, id: int, quantidade: int, preco: real, linhas: seq<Linha>)
    requires Regrava(antes, depois, id, quantidade, preco)
    requires Listagem(antes.produtos, linhas)
    ensures Listagem(depois.produtos, Regravadas(linhas, id, quantidade, preco))
  {
    var novas := Regravadas(linhas, id, quantidade, preco);
    forall i | 0 <= i < |linhas|
      ensures novas[i].id == linhas[i].id && novas[i].id in depois.produtos
      ensures novas[i] == LinhaDe(novas[i].id, depois.produtos[novas[i].id])
    {
      LinhaRegravada(antes, depois, id, quantidade, preco, linhas[i]);
    }
    forall k | k in depois.produtos
      ensures LinhaDe(k, depois.produtos[k]) in novas
    {
      assert LinhaDe(k, antes.produtos[k]) in linhas;
      var i :| 0 <= i < |linhas| && linhas[i] == LinhaDe(k, antes.produtos[k]);
      assert novas[i] == LinhaDe(k, depois.produtos[k]);
    }
  }

  /** One listed row, rewritten as the UPDATE rewrites it, is the row of the new table. */
  lemma LinhaRegravada(antes: Banco, depois: Banco, id: int, quantidade: int, preco: real, l: Linha)
    requires Regrava(antes, depois, id, quantidade, preco)
    requires l.id in antes.produtos && l == LinhaDe(l.id, antes.produtos[l.id])
    ensures l.id in depois.produtos
    ensures (if l.id == id then l.(quantidade := quantidade, preco := preco) else l) == LinhaDe(l.id, depois.produtos[l.id])
  {
  }
}
