/** The product operations of main.py: the validation guards, the message each branch
    prints, and `criar_produto`, `listar_produtos`, `atualizar_produto` and
    `deletar_produto` over the database of module Sql. */
module Produtos {
  import opened Texto
  import opened Sql

  const MaxIntSqlite: int := MaiorInteiro
  const MinIntSqlite: int := 0

  /** The lines main.py prints, one constructor per message. */
  datatype Mensagem =
    | ErroBancoDeDados(erro: Erro)       // "Erro no banco de dados: {e}", printed by executar_sql
    | NomeVazio                          // "Erro: Nome do produto não pode estar vazio."
    | QuantidadeForaDoLimite             // "Erro: Quantidade fora do limite permitido."
    | PrecoNegativo                      // "Erro: O preço deve ser (um valor) positivo."
    | ProdutoInserido                    // "Produto inserido com sucesso."
    | ProdutoJaExiste(nome: string)      // "Erro: O produto '{nome}' já existe."
    | ProdutosDisponiveis                // "Produtos disponíveis no estoque:"
    | ProdutoListado(linha: Linha)       // "ID: .. | Nome: .. | Quantidade: .. | Preço: R$.."
    | SemProdutos                        // "Não há produtos cadastrados."
    | IdInvalido                         // "Erro: ID inválido."
    | ProdutoAtualizado                  // "Produto atualizado com sucesso."
    | ProdutoNaoEncontrado               // "Erro: Produto não encontrado."
    | IdForaDoLimite                     // "Erro: ID fora do limite permitido."
    | ProdutoDeletado                    // "Produto deletado com sucesso."

  /** One operation's effect: the database it leaves and the lines it prints, in order. */
  datatype Passo = Passo(banco: Banco, saida: seq<Mensagem>)

  /** `not nome.strip()` */
  predicate NomeEmBranco(nome: string) {
    Strip(nome) == []
  }

  /** `MIN_INT_SQLITE <= n <= MAX_INT_SQLITE` */
  predicate DentroDoLimite(n: int) {
    MinIntSqlite <= n <= MaxIntSqlite
  }

  /** The three guards of criar_produto all pass. */
  predicate CriacaoValida(nome: string, quantidade: int, preco: real) {
    !NomeEmBranco(nome) && DentroDoLimite(quantidade) && preco >= 0.0
  }

  /** The three guards of atualizar_produto all pass. */
  predicate AtualizacaoValida(id: int, quantidade: int, preco: real) {
    DentroDoLimite(id) && DentroDoLimite(quantidade) && preco >= 0.0
  }

  /** The table invariant every operation keeps: the schema's guarantees, and every row
      has a non-blank name, a quantity in range and a non-negative price. */
  ghost predicate Consistente(b: Banco) {
    && Valido(b)
    && forall id | id in b.produtos ::
         && !NomeEmBranco(b.produtos[id].nome)
         && DentroDoLimite(b.produtos[id].quantidade)
         && b.produtos[id].preco >= 0.0
  }

  /** criar_produto (main.py:49-68). executar_sql swallows every DatabaseError, the
      IntegrityError of a duplicate name included, so once the guards pass the success
      line is printed whatever the INSERT did. */
  function Criar(b: Banco, nome: string, quantidade: int, preco: real): (r: Passo)
    // the guards run in the order name, quantity, price; the first that fails decides
    ensures NomeEmBranco(nome) ==> r == Passo(b, [NomeVazio])
    ensures !NomeEmBranco(nome) && !DentroDoLimite(quantidade) ==> r == Passo(b, [QuantidadeForaDoLimite])
    ensures !NomeEmBranco(nome) && DentroDoLimite(quantidade) && preco < 0.0 ==> r == Passo(b, [PrecoNegativo])
    // past the guards the last line is always the success line
    ensures CriacaoValida(nome, quantidade, preco) ==> r.saida != [] && r.saida[|r.saida| - 1] == ProdutoInserido
    // a row is added exactly when the guards pass and the INSERT commits
    ensures r.banco != b <==>
      CriacaoValida(nome, quantidade, preco) && b.existe && b.sequencia < MaiorInteiro && !NomeEmUso(b.produtos, nome)
    ensures r.banco != b && Valido(b) ==> Acrescenta(b, r.banco, ProximoId(b), Produto(nome, quantidade, preco))
    ensures r.banco != b ==> r.saida == [ProdutoInserido]
    // a failed INSERT (no table, ids used up, duplicate name): executar_sql prints the
    // DatabaseError, the table is unchanged, and the success line follows
    ensures CriacaoValida(nome, quantidade, preco) && Inserir(b, nome, quantidade, preco).Falha? ==>
      r == Passo(b, [ErroBancoDeDados(Inserir(b, nome, quantidade, preco).erro), ProdutoInserido])
    // a duplicate name: executar_sql prints the IntegrityError, then the success line follows
    ensures CriacaoValida(nome, quantidade, preco) && b.existe && b.sequencia < MaiorInteiro && NomeEmUso(b.produtos, nome) ==>
      r == Passo(b, [ErroBancoDeDados(NomeDuplicado), ProdutoInserido])
    ensures ProdutoJaExiste(nome) !in r.saida
    ensures Consistente(b) ==> Consistente(r.banco)
  {
    if NomeEmBranco(nome) then Passo(b, [NomeVazio])
    else if !DentroDoLimite(quantidade) then Passo(b, [QuantidadeForaDoLimite])
    else if preco < 0.0 then Passo(b, [PrecoNegativo])
    else
      match Inserir(b, nome, quantidade, preco)
      case Ok(escrita) => Passo(escrita.banco, [ProdutoInserido])
      case Falha(e) => Passo(b, [ErroBancoDeDados(e), ProdutoInserido])
  }

  /** The lines listar_produtos prints for fetched rows, one per row. */
  function Exibir(linhas: seq<Linha>): seq<Mensagem> {
    seq(|linhas|, i requires 0 <= i < |linhas| => ProdutoListado(linhas[i]))
  }

  /** atualizar_produto (main.py:80-99): guards on id, quantity and price, then a SELECT
      by id, then an UPDATE of quantidade and preco only. */
  function Atualizar(b: Banco, id: int, quantidade: int, preco: real): (r: Passo)
    ensures !DentroDoLimite(id) ==> r == Passo(b, [IdInvalido])
    ensures DentroDoLimite(id) && !DentroDoLimite(quantidade) ==> r == Passo(b, [QuantidadeForaDoLimite])
    ensures DentroDoLimite(id) && DentroDoLimite(quantidade) && preco < 0.0 ==> r == Passo(b, [PrecoNegativo])
    ensures r.saida == [ProdutoAtualizado] <==> AtualizacaoValida(id, quantidade, preco) && b.existe && id in b.produtos
    ensures r.saida == [ProdutoAtualizado] ==> Regrava(b, r.banco, id, quantidade, preco)
    ensures r.saida != [ProdutoAtualizado] ==> r.banco == b
    ensures AtualizacaoValida(id, quantidade, preco) && b.existe && id !in b.produtos ==>
      r.saida == [ProdutoNaoEncontrado]
    // with no table the SELECT fails inside executar_sql, which returns None
    ensures AtualizacaoValida(id, quantidade, preco) && !b.existe ==>
      r.saida == [ErroBancoDeDados(TabelaInexistente), ProdutoNaoEncontrado]
    ensures Consistente(b) ==> Consistente(r.banco)
  {
    if !DentroDoLimite(id) then Passo(b, [IdInvalido])
    else if !DentroDoLimite(quantidade) then Passo(b, [QuantidadeForaDoLimite])
    else if preco < 0.0 then Passo(b, [PrecoNegativo])
    else
      match SelecionarPorId(b, id)
      case Falha(e) => Passo(b, [ErroBancoDeDados(e), ProdutoNaoEncontrado])
      case Ok(produto) =>
        if produto != [] then
          match AtualizarLinha(b, id, quantidade, preco)
          case Ok(escrita) => Passo(escrita.banco, [ProdutoAtualizado])
          case Falha(e) => Passo(b, [ErroBancoDeDados(e), ProdutoAtualizado])
        else Passo(b, [ProdutoNaoEncontrado])
  }

  /** deletar_produto (main.py:101-111): a guard on id, then DELETE by id; "found" is
      `cursor and cursor.rowcount > 0`. */
  function Deletar(b: Banco, id: int): (r: Passo)
    ensures !DentroDoLimite(id) ==> r == Passo(b, [IdForaDoLimite])
    ensures DentroDoLimite(id) && b.existe ==> Retira(b, r.banco, id)
    ensures r.saida == [ProdutoDeletado] <==> DentroDoLimite(id) && b.existe && id in b.produtos
    ensures r.saida != [ProdutoDeletado] ==> r.banco == b
    ensures DentroDoLimite(id) && b.existe && id !in b.produtos ==> r.saida == [ProdutoNaoEncontrado]
    // with no table the DELETE fails inside executar_sql, which returns None
    ensures DentroDoLimite(id) && !b.existe ==> r.saida == [ErroBancoDeDados(TabelaInexistente), ProdutoNaoEncontrado]
    ensures Consistente(b) ==> Consistente(r.banco)
  {
    if !DentroDoLimite(id) then Passo(b, [IdForaDoLimite])
    else
      match Excluir(b, id)
      case Falha(e) => Passo(b, [ErroBancoDeDados(e), ProdutoNaoEncontrado])
      case Ok(cursor) =>
        if cursor.linhasAfetadas > 0 then Passo(cursor.banco, [ProdutoDeletado])
        else Passo(cursor.banco, [ProdutoNaoEncontrado])
  }

  /** A second create with a name that a first create stored never adds a row; while ids
      remain, it prints the UNIQUE violation and then the success line. */
  lemma CriarNomeRepetido(b: Banco, nome: string, q1: int, p1: real, q2: int, p2: real)
    requires Consistente(b)
    requires Criar(b, nome, q1, p1).banco != b
    ensures var b1 := Criar(b, nome, q1, p1).banco;
      && Criar(b1, nome, q2, p2).banco == b1
      && (CriacaoValida(nome, q2, p2) && b1.sequencia < MaiorInteiro ==>
            Criar(b1, nome, q2, p2).saida == [ErroBancoDeDados(NomeDuplicado), ProdutoInserido])
  {
    var b1 := Criar(b, nome, q1, p1).banco;
    assert b1.produtos[ProximoId(b)].nome == nome;
    assert NomeEmUso(b1.produtos, nome);
  }

  /** Create then list: the listing shows the new product once, under the new id. */
  lemma CriarDepoisListar(b: Banco, nome: string, quantidade: int, preco: real, linhas: seq<Linha>)
    requires Valido(b) && b.existe && b.sequencia < MaiorInteiro
    requires CriacaoValida(nome, quantidade, preco) && !NomeEmUso(b.produtos, nome)
    requires Listagem(Criar(b, nome, quantidade, preco).banco.produtos, linhas)
    ensures Linha(ProximoId(b), nome, quantidade, preco) in linhas
    ensures forall i | 0 <= i < |linhas| && linhas[i].nome == nome ::
      linhas[i] == Linha(ProximoId(b), nome, quantidade, preco)
  {
    var depois := Criar(b, nome, quantidade, preco).banco;
    assert LinhaDe(ProximoId(b), depois.produtos[ProximoId(b)]) in linhas;
    forall i | 0 <= i < |linhas| && linhas[i].nome == nome
      ensures linhas[i] == Linha(ProximoId(b), nome, quantidade, preco)
    {
      assert linhas[i] in linhas;
    }
  }

  /** Update then list: the updated row shows the new quantity and price under its old
      name, and every other row is listed as before. */
  lemma AtualizarDepoisListar(b: Banco, id: int, quantidade: int, preco: real, antes: seq<Linha>, depois: seq<Linha>)
    requires Atualizar(b, id, quantidade, preco).saida == [ProdutoAtualizado]
    requires Listagem(b.produtos, antes)
    requires Listagem(Atualizar(b, id, quantidade, preco).banco.produtos, depois)
    ensures depois == Regravadas(antes, id, quantidade, preco)
  {
    var b1 := Atualizar(b, id, quantidade, preco).banco;
    ListagemAposRegrava(b, b1, id, quantidade, preco, antes);
    ListagemUnica(b1.produtos, Regravadas(antes, id, quantidade, preco), depois);
  }

  /** Deleting the same id twice: the second call removes nothing and does not report a
      deletion; with the table present it reports not-found. */
  lemma DeletarDuasVezes(b: Banco, id: int)
    ensures var d1 := Deletar(b, id);
      && Deletar(d1.banco, id).banco == d1.banco
      && Deletar(d1.banco, id).saida != [ProdutoDeletado]
      && (DentroDoLimite(id) && b.existe ==> Deletar(d1.banco, id).saida == [ProdutoNaoEncontrado])
  {
  }

  /** criar_produto as evidently intended: the IntegrityError reaches the `except` of
      main.py:67 and its message is printed instead of the success line; any other
      DatabaseError is printed and no success is claimed. */
  function CriarCorrigido(b: Banco, nome: string, quantidade: int, preco: real): (r: Passo)
    ensures ProdutoInserido in r.saida <==> r.banco != b
    ensures ProdutoJaExiste(nome) in r.saida <==>
      CriacaoValida(nome, quantidade, preco) && b.existe && b.sequencia < MaiorInteiro && NomeEmUso(b.produtos, nome)
    ensures r.banco == Criar(b, nome, quantidade, preco).banco
    ensures Consistente(b) ==> Consistente(r.banco)
  {
    if NomeEmBranco(nome) then Passo(b, [NomeVazio])
    else if !DentroDoLimite(quantidade) then Passo(b, [QuantidadeForaDoLimite])
    else if preco < 0.0 then Passo(b, [PrecoNegativo])
    else
      match Inserir(b, nome, quantidade, preco)
      case Ok(escrita) => Passo(escrita.banco, [ProdutoInserido])
      case Falha(NomeDuplicado) => Passo(b, [ProdutoJaExiste(nome)])
      case Falha(e) => Passo(b, [ErroBancoDeDados(e)])
  }

  /** The file with one product, "Widget". */
  const ComWidget: Banco := Banco(true, map[1 := Produto("Widget", 10, 9.99)], 1)

  /** As written, creating "Widget" again prints the success line although the table is
      unchanged; the corrected version prints the duplicate-name message instead. */
  lemma DuplicadoRelatadoComoInserido()
    ensures Criar(ComWidget, "Widget", 1, 1.0).banco == ComWidget
    ensures ProdutoInserido in Criar(ComWidget, "Widget", 1, 1.0).saida
    ensures CriarCorrigido(ComWidget, "Widget", 1, 1.0).saida == [ProdutoJaExiste("Widget")]
  {
    assert ComWidget.produtos[1].nome == "Widget";
    assert !NomeEmBranco("Widget") by {
      assert !EspacoEmBranco("Widget"[0]);
    }
  }

  /** The database file estoque.db, as the running program sees it between operations. */
  class Estoque {
    var existe: bool
    var produtos: map<int, Produto>
    var sequencia: int

    function Estado(): Banco
      reads this
    {
      Banco(existe, produtos, sequencia)
    }

    ghost predicate Valid()
      reads this
    {
      Consistente(Estado())
    }

    /** Opens the file in the state an earlier run of the program left it. */
    constructor (arquivo: Banco)
      requires Consistente(arquivo)
      ensures Valid() && Estado() == arquivo
    {
      existe := arquivo.existe;
      produtos := arquivo.produtos;
      sequencia := arquivo.sequencia;
    }

    /** The commit at the end of executar_sql: the file takes the statement's result. */
    method Gravar(b: Banco)
      requires Consistente(b)
      modifies this
      ensures Valid() && Estado() == b
    {
      existe, produtos, sequencia := b.existe, b.produtos, b.sequencia;
    }

    /** criar_banco_de_dados (main.py:38-47). */
    method CriarBancoDeDados()
      requires Valid()
      modifies this
      ensures Valid()
      ensures Estado() == CriarTabela(old(Estado()))
    {
      Gravar(CriarTabela(Estado()));
    }

    /** criar_produto (main.py:49-68). */
    method CriarProduto(nome: string, quantidade: int, preco: real) returns (saida: seq<Mensagem>)
      requires Valid()
      modifies this
      ensures Valid()
      ensures Passo(Estado(), saida) == Criar(old(Estado()), nome, quantidade, preco)
    {
      if NomeEmBranco(nome) {
        return [NomeVazio];
      }
      if !DentroDoLimite(quantidade) {
        return [QuantidadeForaDoLimite];
      }
      if preco < 0.0 {
        return [PrecoNegativo];
      }
      var cursor := Inserir(Estado(), nome, quantidade, preco);
      if cursor.Ok? {
        Gravar(cursor.valor.banco);
        saida := [ProdutoInserido];
      } else {
        saida := [ErroBancoDeDados(cursor.erro), ProdutoInserido];
      }
    }

    /** listar_produtos (main.py:70-78): fetch every row, then print one line per row. */
    method ListarProdutos() returns (saida: seq<Mensagem>)
      ensures !existe ==> saida == [ErroBancoDeDados(TabelaInexistente), SemProdutos]
      ensures existe && produtos == map[] ==> saida == [SemProdutos]
      ensures existe && produtos != map[] ==>
        exists linhas :: Listagem(produtos, linhas) && saida == [ProdutosDisponiveis] + Exibir(linhas)
    {
      var fetch := SelecionarTodos(Estado());
      if fetch.Falha? {
        return [ErroBancoDeDados(fetch.erro), SemProdutos];
      }
      var linhas := fetch.valor;
      if produtos != map[] {
        var id := AlgumId(produtos.Keys);
        assert LinhaDe(id, produtos[id]) in linhas;
      }
      if linhas == [] {
        return [SemProdutos];
      }
      assert linhas[0] in linhas;
      saida := [ProdutosDisponiveis];
      for i := 0 to |linhas|
        invariant saida == [ProdutosDisponiveis] + Exibir(linhas[..i])
      {
        assert linhas[..i + 1] == linhas[..i] + [linhas[i]];
        saida := saida + [ProdutoListado(linhas[i])];
      }
      assert linhas[..|linhas|] == linhas;
    }

    /** atualizar_produto (main.py:80-99). */
    method AtualizarProduto(id: int, quantidade: int, preco: real) returns (saida: seq<Mensagem>)
      requires Valid()
      modifies this
      ensures Valid()
      ensures Passo(Estado(), saida) == Atualizar(old(Estado()), id, quantidade, preco)
    {
      if !DentroDoLimite(id) {
        return [IdInvalido];
      }
      if !DentroDoLimite(quantidade) {
        return [QuantidadeForaDoLimite];
      }
      if preco < 0.0 {
        return [PrecoNegativo];
      }
      var produto := SelecionarPorId(Estado(), id);
      if produto.Falha? {
        return [ErroBancoDeDados(produto.erro), ProdutoNaoEncontrado];
      }
      if produto.valor != [] {
        var cursor := AtualizarLinha(Estado(), id, quantidade, preco);
        match cursor {
          case Ok(escrita) =>
            Gravar(escrita.banco);
            saida := [ProdutoAtualizado];
          case Falha(e) =>
            saida := [ErroBancoDeDados(e), ProdutoAtualizado];
        }
      } else {
        saida := [ProdutoNaoEncontrado];
      }
    }

    /** deletar_produto (main.py:101-111). */
    method DeletarProduto(id: int) returns (saida: seq<Mensagem>)
      requires Valid()
      modifies this
      ensures Valid()
      ensures Passo(Estado(), saida) == Deletar(old(Estado()), id)
    {
      if !DentroDoLimite(id) {
        return [IdForaDoLimite];
      }
      var cursor := Excluir(Estado(), id);
      if cursor.Ok? {
        Gravar(cursor.valor.banco);
      }
      if cursor.Ok? && cursor.valor.linhasAfetadas > 0 {
        saida := [ProdutoDeletado];
      } else {
        saida := [ProdutoNaoEncontrado];
        if cursor.Falha? {
          saida := [ErroBancoDeDados(cursor.erro)] + saida;
        }
      }
    }
  }
}
