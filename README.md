# Stock manager (Projeto_LP2) — a Dafny model of `main.py`

The program keeps a product stock in the SQLite file `estoque.db`. It has one table,
`produtos (id INTEGER PRIMARY KEY AUTOINCREMENT, nome TEXT NOT NULL UNIQUE,
quantidade INTEGER NOT NULL, preco REAL NOT NULL)`. Four terminal operations work on
it: `criar_produto`, `listar_produtos`, `atualizar_produto` and `deletar_produto`.
`criar_produto`, `atualizar_produto` and `deletar_produto` each run a chain of input
guards and then one or two parameterised statements through `executar_sql`;
`listar_produtos` has no guard and runs the unparameterised `SELECT * FROM produtos`.
`executar_sql` catches every `sqlite3.DatabaseError`, prints it, and returns `None`.

The model has three modules:

- `Texto` (texto.dfy) models Python's `str.strip()` and `str.isspace()`. The name
  guard `not nome.strip()` is built on them.
- `Sql` (sql.dfy) is the database file as a value `Banco`. It holds whether the table
  exists, the rows as a map from `id` to `(nome, quantidade, preco)`, and the
  `sqlite_sequence` counter that AUTOINCREMENT draws ids from. `Valido` states what
  the schema guarantees: ids lie in `[1, sequencia]` and names are unique.
  `CREATE TABLE IF NOT EXISTS` is a function from the database to the database it
  leaves; it cannot fail. `INSERT`, `UPDATE` and `DELETE` are functions to a
  `Resultado` that is either the committed write with its rowcount or the
  `DatabaseError` raised. `SELECT ... WHERE id` is a function to a `Resultado` holding
  the fetched rows or the error. `SELECT *` is a method that fetches the rows in id
  order, or fails without the table.
- `Produtos` (produtos.dfy) holds the guards and the constants `MAX_INT_SQLITE` and
  `MIN_INT_SQLITE`. Each printed line is a constructor of `Mensagem`, so the lines an
  operation prints become part of its postcondition. Both price-guard texts ("deve ser
  um valor positivo" and "deve ser positivo") are `PrecoNegativo`. The pure functions
  `Criar`, `Atualizar` and `Deletar` give each operation's effect as a `Passo`: the
  database it leaves and the lines it prints. `Consistente` is the table-wide
  invariant that every operation keeps: the schema's guarantees, no blank name, every
  quantity in `[0, 2^63-1]` and every price `>= 0`. The class `Estoque` holds the
  mutable file state in the fields `existe`, `produtos` and `sequencia`. `Gravar` is
  the commit. `CriarBancoDeDados` creates the table and is proved equal to `CriarTabela`.
  `CriarProduto`, `AtualizarProduto` and `DeletarProduto` run the guard chains step by
  step and are proved equal to `Criar`, `Atualizar` and `Deletar`. `ListarProdutos` has
  no pure counterpart: it is specified against the listing predicate `Listagem` (every
  row once, in id order) and the line-per-row rendering `Exibir`.

As written, `executar_sql` also swallows the `IntegrityError` of a duplicate name.
The `except sqlite3.IntegrityError` in `criar_produto` is therefore never reached. A
duplicate insert prints the database error and then "Produto inserido com sucesso.",
and the table is unchanged. The model keeps this behaviour (see Findings). The
unreachable `except sqlite3.IntegrityError` at main.py:67-68 shows the intended
message; the code never reaches it, and the model follows the code.

A statement on a file without the table fails with "no such table". An `INSERT` once
AUTOINCREMENT has used id `2^63-1` fails with SQLITE_FULL. Both are swallowed in the
same way, and both are modelled.

## Model

| member | source | states |
|---|---|---|
| `Texto.LStrip` | main.py:51 | the result is a suffix of the input, everything cut off is whitespace, and it does not start with whitespace |
| `Texto.RStrip` | main.py:51 | the result is a prefix of the input, everything cut off is whitespace, and it does not end with whitespace |
| `Texto.Strip` | main.py:51 | the result is a contiguous slice of the input with only whitespace cut before and after it (`Aparado`), no longer than the input, and neither starting nor ending with whitespace |
| `Texto.StripVazioSse` | main.py:51-53 | `nome.strip()` is empty exactly when `nome` is empty or all whitespace (both directions) |
| `Sql.CriarTabela` | main.py:38-47 | CREATE TABLE IF NOT EXISTS: afterwards the table exists; an existing table is untouched (so it is idempotent); a new table is empty; the schema invariant is kept |
| `Sql.Inserir` | main.py:62-65 | INSERT commits exactly when the table exists, an id is left and the name is not in use (UNIQUE on `nome`, main.py:43); otherwise it fails: "no such table" without the table, SQLITE_FULL once id `2^63-1` is used, NomeDuplicado when only the name is at fault; on success it adds exactly one row under the fresh id `sequencia + 1`, keeps every other row, and keeps the schema invariant |
| `Sql.SelecionarPorId` | main.py:92 | fails only without the table; otherwise it returns at most one row, the row with that id, and an empty result exactly when the id is absent |
| `Sql.AtualizarLinha` | main.py:94-96 | fails only without the table; otherwise it rewrites quantidade and preco of that id only, keeps every id, every name and every other row, reports rowcount 1 exactly when the id exists, and keeps the schema invariant |
| `Sql.Excluir` | main.py:107 | fails only without the table; otherwise it removes exactly that id, keeps the other rows and the sequence, has a rowcount equal to the number of rows removed (positive exactly when the id existed), and keeps the schema invariant |
| `Sql.SelecionarTodos` | main.py:72 | fails only without the table (no such table); otherwise it returns every row exactly once, nothing else, in increasing id order |
| `Sql.ListagemUnica` | main.py:72 | two listings of the same table are equal, so the rows fetched are determined by the table |
| `Sql.ListagemAposRegrava` | main.py:94-96 | after an UPDATE the table lists as the old listing with only that row's quantity and price rewritten in place |
| `Produtos.Criar` | main.py:49-68 | guards run name, then quantity, then price; the first that fails decides the single message and the table is unchanged; past the guards the last line is always the success line; a row is added exactly when the guards pass and the INSERT commits, and then exactly one row with the given values under a fresh id; a failed INSERT (missing table, ids used up, duplicate name) leaves the table unchanged and prints that database error and then the success line; the "already exists" line is never printed; the table invariant is kept |
| `Produtos.Atualizar` | main.py:80-99 | guards run id, then quantity, then price, before any table access; success is printed exactly when the guards pass and the id exists, and then only that row's quantidade and preco change (id, nome and other rows kept); otherwise the table is unchanged and a missing id prints not-found; the table invariant is kept |
| `Produtos.Deletar` | main.py:101-111 | an out-of-range id is rejected before table access; otherwise exactly that id is removed; success is printed exactly when a row was removed, else not-found with the table unchanged; the table invariant is kept |
| `Produtos.CriarNomeRepetido` | main.py:62-68 | after a create that stored a name, creating the same name again never adds a row and, while ids remain, prints the UNIQUE violation followed by the success line |
| `Produtos.CriarDepoisListar` | main.py:62-76 | after a create that stored a row, any listing shows exactly one row with that name: the new id with the given quantity and price |
| `Produtos.AtualizarDepoisListar` | main.py:92-97 | after a successful update, the listing is the earlier listing with only that row's quantity and price replaced |
| `Produtos.DeletarDuasVezes` | main.py:107-111 | a repeated delete of the same id leaves the table as the first left it, never reports a deletion, and reports not-found when the table exists |
| `Produtos.CriarCorrigido` | main.py:61-68 | the intended create: success is printed exactly when a row was added; the duplicate-name message is printed exactly when the guards pass, the table exists, an id is left and the name is in use; it changes the table as `Criar` does and keeps the invariant |
| `Produtos.DuplicadoRelatadoComoInserido` | main.py:66 | for a file holding "Widget", creating "Widget" again leaves the table unchanged yet prints the success line, while the intended version prints the duplicate-name message |
| `Produtos.Estoque.constructor` | main.py:27 | opening the file exposes the state a previous run left, which satisfies the table invariant |
| `Produtos.Estoque.Gravar` | main.py:32 | the commit: given a state satisfying the table invariant, the file takes that state and the invariant holds |
| `Produtos.Estoque.CriarBancoDeDados` | main.py:38-47 | the file state becomes `CriarTabela` of the old state and the invariant is kept |
| `Produtos.Estoque.CriarProduto` | main.py:49-68 | the new file state and the printed lines are exactly those of `Criar` on the old state; the invariant is kept |
| `Produtos.Estoque.ListarProdutos` | main.py:70-78 | without the table, the database error and then "no products"; with an empty table, "no products"; otherwise the header and then one line per row of a listing of the table (every row once, in id order) |
| `Produtos.Estoque.AtualizarProduto` | main.py:80-99 | the new file state and the printed lines are exactly those of `Atualizar` on the old state; the invariant is kept |
| `Produtos.Estoque.DeletarProduto` | main.py:101-111 | the new file state and the printed lines are exactly those of `Deletar` on the old state; the invariant is kept |

## Findings

| source | as written | input that shows it | evidently intended | confidence | as-written member | corrected member |
|---|---|---|---|---|---|---|
| main.py:61-68 | `executar_sql` catches `sqlite3.DatabaseError`, and `IntegrityError` is a subclass of it. The duplicate-name error is printed and swallowed, `criar_produto` goes on to print "Produto inserido com sucesso.", and its `except sqlite3.IntegrityError` is dead | a file holding "Widget"; `criar_produto("Widget", 1, 1.0)` | print "Erro: O produto 'Widget' já existe." and claim no success | high; not executed | `Produtos.Criar` (with `Produtos.DuplicadoRelatadoComoInserido`) | `Produtos.CriarCorrigido` |

The class `Estoque` keeps the behaviour as written, because it models the program as
it runs. `CriarCorrigido` adds the same rows as `Criar`. The two differ only in the
lines they print.

## Left out

- Console I/O is left out: `ler_int` and `ler_float` (Python's `int()`/`float()` parsing),
  the `*_interativo` wrappers, the menu loop and dispatch table of `exibir_menu`, and
  `main`. The model's operations take already-parsed integers and prices.
- Process lifecycle is left out: `exit()` and the `KeyboardInterrupt` handler.
- Only three `DatabaseError`s are modelled: the missing table, an exhausted
  AUTOINCREMENT, and the UNIQUE violation. Locks, busy files, I/O and disk errors come
  from outside the program and are not modelled.
- Connection opening and closing are not modelled. `sqlite3.connect` used as a context
  manager commits or rolls back but does not close. A failed statement leaves the file
  unchanged, which the model keeps.
- Prices are `real`. IEEE-754 behaviour is not modelled: NaN passes the `preco < 0`
  guard, and infinities and rounding are ignored. The `R$...:.2f` formatting of
  `listar_produtos` is not modelled either. A listed row carries the exact stored price.
- Python's arbitrary-size `int` is modelled as `int`. Binding an integer above 2^63-1
  would raise `OverflowError`, and the range guards always prevent it. SQLite's column
  type affinity is not modelled.
- The listing fetches rows in increasing id order. That is the order
  of SQLite's full scan of a rowid table. SQL itself does not guarantee it without
  `ORDER BY`.
- AUTOINCREMENT is modelled through `sqlite_sequence`: the next id is the largest id
  ever assigned plus one. An explicit id given to an INSERT is not modelled, because
  the program never supplies one.
