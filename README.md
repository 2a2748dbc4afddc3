# Field and table documentation generators, and the division transform

This project models three components of `engDados-Solucoes` in Dafny and
proves properties of them.

- `GeradorDescritivos` (`notebooks/gerador_descritivos.py`) records form and
  database fields. It writes one Portuguese sentence per field and renders a
  Markdown report with one numbered section per field.
- `GeradorDescritivosTabelas` (`notebooks/gerar_descritivos_tabelas.py`)
  records tables by logical name and a one-line description. For each
  table it derives:
  - a friendly name;
  - a context (entity type, domain, relationships, importance);
  - an expanded description;
  - a list of purposes;
  - a list of technical notes.

  It renders all of these as one Markdown report with an index, one section
  per table and closing notes.
- `processar` (`notebooks/src/processamento.py`) coerces the columns `val1`
  and `val2` of a table to numbers and divides them row by row into `val3`.
  The policy "nan", "inf" or "raise" decides what happens to zero divisors
  and to non-finite quotients.

Files:

- `texto.dfy` (module `Texto`): the parts of Python's `str` the generators
  use.
  - `lower()`, `title()`, `replace()`, `in`, `''.join` and `sep.join`, and
    `str()` of an integer.
  - Generic lemmas about numbered and separated blocks of report lines.
- `campos.dfy` (module `Campos`): the field generator.
  - The class `GeradorDescritivos`, whose `campos` field `AdicionarCampo`
    extends.
  - The sentence as a function.
  - The report loop as methods proved equal to the report function.
- `tabelas.dfy` (module `Tabelas`): the table generator.
  - The class `GeradorDescritivosTabelas`.
  - `InferirContexto`: the rule-by-rule update of the context record.
  - The index loop and the detail loop of the report, proved against the
    report function.
- `processamento.dfy` (module `Processamento`): the division transform.
  - A spec function `Processar`.
  - A method `ProcessarTabela` that works step by step on freshly allocated
    arrays and is proved equal to it.
  - The lemmas for the policies.

Conventions of the model:

- A table record is the pair of its two keys.
- A field record is a datatype whose optional attributes are `Option`s.
  - Python truthiness is spelled out: size bounds count only when non-zero,
    texts only when non-empty, option lists only when non-empty.
- The timestamp `_obter_data_atual()` is a parameter `data` of the report
  functions.
- A numeric cell of the division transform is an extended real: `Ausente`,
  `Fin(x)`, `MaisInf` or `MenosInf`. NaN and missing are the same value
  here, as they are in pandas.

## Model

| member | source | states |
|---|---|---|
| Texto.Lower | notebooks/gerar_descritivos_tabelas.py:48-49 | `lower()` keeps the length and lower-cases each character on its own, leaving every character that is not upper-case as it is |
| Texto.Title | notebooks/gerador_descritivos.py:96 | `title()` keeps the length and every uncased character; a cased character becomes upper-case at the start of a word (no cased character before it) and lower-case inside one |
| Texto.LowerIdempotent | notebooks/gerador_descritivos.py:99 | lower-casing twice is lower-casing once, so a key looked up by its lower-cased form is case-insensitive |
| Texto.TitleFrom | notebooks/gerador_descritivos.py:96 | `title()`: every uncased character is kept; a cased character is lower-cased when the character before it is cased and upper-cased otherwise; the length is kept |
| Texto.TitleKeepsUncased | notebooks/gerar_descritivos_tabelas.py:36 | `title()` neither creates nor removes an uncased character such as '_' |
| Texto.Replace | notebooks/gerar_descritivos_tabelas.py:34 | `replace()` does not lengthen the string when the replacement is no longer than the pattern; a one-character pattern absent from the replacement is absent from the result; every character of the result comes from the input or the replacement |
| Texto.ContainsAt | notebooks/gerar_descritivos_tabelas.py:52 | `sub in s` holds exactly when `sub` occurs at some index of `s` |
| Texto.ConcatAppend | notebooks/gerar_descritivos_tabelas.py:247 | `''.join` of two lists in sequence is the concatenation of their joins |
| Texto.JoinPair | notebooks/gerador_descritivos.py:115 | `sep.join([a, b])` is `a + sep + b` |
| Texto.JoinAsConcat | notebooks/gerador_descritivos.py:128 | `sep.join(xs)` is the first item followed by each later item preceded by the separator |
| Texto.NatToString | notebooks/gerador_descritivos.py:156 | `str(n)` of a natural number is non-empty, all decimal digits, with no leading zero |
| Texto.NatToStringRoundTrip | notebooks/gerador_descritivos.py:156 | reading back the digits of `str(n)` gives `n` |
| Texto.IntToString | notebooks/gerador_descritivos.py:111-114 | `str()` of a size bound, which may be negative, is non-empty, starts with '-' exactly when the bound is negative, and is decimal digits after that sign |
| Texto.IntToStringRoundTrip | notebooks/gerador_descritivos.py:111-114 | reading back the sign and digits of `str(i)` gives `i` |
| Texto.NatToStringInjective | notebooks/gerar_descritivos_tabelas.py:195 | distinct numbers print differently, so the numbers of report entries tell them apart |
| Texto.EnumeradosLinha | notebooks/gerar_descritivos_tabelas.py:193-195 | in a list built by `enumerate(xs, 1)`, entry k is the line of number k + 1 and item k |
| Texto.NumeradosFatia | notebooks/gerador_descritivos.py:149-183 | after a fixed header, the block of item k sits right after the blocks of the items before it |
| Texto.SeparadosBloco | notebooks/gerar_descritivos_tabelas.py:200-238 | in blocks separated by a separator line, block k sits after the earlier blocks; the separator follows it exactly when it is not the last, and the last block ends the list |
| Campos.TipoDescricao | notebooks/gerador_descritivos.py:99-100 | the type description is the table entry for the lower-cased type name, or the type name unchanged when there is none |
| Campos.TipoDescricaoIgnoraCaixa | notebooks/gerador_descritivos.py:99 | for a known type, the description does not depend on the case of the type name |
| Campos.TipoDescricaoExemplos | notebooks/gerador_descritivos.py:16-43 | "Email" is described as "endereço de e-mail"; the unknown "uuid" is echoed |
| Campos.NomeFormatado | notebooks/gerador_descritivos.py:96 | the formatted field name has the length of the name and contains no '_' |
| Campos.RestricaoTamanhoFrases | notebooks/gerador_descritivos.py:109-115 | the size clause is empty exactly when no bound is truthy (0 and None are left out); otherwise it is ", com " followed by the minimum, the maximum, or both joined by " e " |
| Campos.RestricaoValorFrases | notebooks/gerador_descritivos.py:118-124 | the value clause is empty exactly when both bounds are None (a bound of 0 is shown); otherwise ", com " followed by one bound or both joined by " e " |
| Campos.ListaOpcoes | notebooks/gerador_descritivos.py:127-131 | without options the piece is "."; with options it starts with ". As opções válidas são: " and the first option in double quotes |
| Campos.ListaOpcoesEmOrdem | notebooks/gerador_descritivos.py:127-129 | the options appear in their order, each in double quotes, every one after the first preceded by ", " |
| Campos.Descritivo | notebooks/gerador_descritivos.py:91-145 | the sentence starts with `**<formatted name>** é um campo do tipo <description> ` and the requirement phrase, and ends with " " and the custom description when that is truthy |
| Campos.Complemento | notebooks/gerador_descritivos.py:108-145 | the pieces after the requirement phrase end with the custom description, preceded by one space, when it is truthy |
| Campos.DescritivoIndependente | notebooks/gerador_descritivos.py:73-87 | the sentence depends on the field's attributes only, not on a description stored before |
| Campos.ObrigatoriedadeNoDescritivo | notebooks/gerador_descritivos.py:103-106 | the sentence carries "de preenchimento **obrigatório** " exactly for required fields and "de preenchimento **opcional** " exactly for the others |
| Campos.FraseLida | notebooks/gerador_descritivos.py:103-106 | after the same header, a text that starts with the requirement phrase of a flag starts with "obrigatório"'s phrase exactly when the flag is set, and with "opcional"'s exactly when it is not |
| Campos.SecaoNoRelatorio | notebooks/gerador_descritivos.py:149-183 | the report holds the section of field k at the line after the header and the earlier sections; the section is headed by the number k + 1 and the name, and holds the description and the specification rows |
| Campos.SecaoDoCampo | notebooks/gerador_descritivos.py:156-182 | one pass of the report loop produces exactly the section of that field |
| Campos.LinhasOpcionaisDoCampo | notebooks/gerador_descritivos.py:167-180 | the optional rows are appended one by one, each only when its attribute is informed, in the report's order |
| Campos.GeradorDescritivos.constructor | notebooks/gerador_descritivos.py:45-46 | a new generator has no fields |
| Campos.GeradorDescritivos.AdicionarCampo | notebooks/gerador_descritivos.py:48-89 | appends exactly one record holding the given attributes and the sentence generated from them; returns that record; the earlier records are unchanged |
| Campos.GeradorDescritivos.SecoesDosCampos | notebooks/gerador_descritivos.py:155-182 | the report loop yields the sections of all recorded fields, numbered from 1 in insertion order |
| Campos.DescritivoNoRelatorio | notebooks/gerador_descritivos.py:155-157 | the line after the heading of field k's section is that field's stored description followed by a newline |
| Campos.GeradorDescritivos.GerarRelatorioMarkdown | notebooks/gerador_descritivos.py:147-184 | the report is the header lines and the sections joined with newlines; since every recorded field carries its generated description, the second line of field k's section is the generated description of field k |
| Tabelas.NomeAmigavel | notebooks/gerar_descritivos_tabelas.py:31-37 | the friendly name contains no '_' and is no longer than the logical name |
| Tabelas.ContextoDe | notebooks/gerar_descritivos_tabelas.py:39-75 | with no keyword the context is the default one (dados, geral, no relationships, média); "apolice" or "seguro" in the description forces domain "seguros" and importance "alta" over earlier rules; there are at most four relationships, and none exactly when none of the first four rules fires |
| Tabelas.IndiciosDe | notebooks/gerar_descritivos_tabelas.py:52-71 | each keyword test holds exactly when its keyword occurs in the lower-cased name or description: "dependente" in either, "endereco" in the name or "endereço" in the description, "faturamento" in the name or "fatura" in the description, "medico" in the name or "médico" in the description, "apolice" or "seguro" in the description |
| Tabelas.InferirContexto | notebooks/gerar_descritivos_tabelas.py:39-75 | the record updated rule by rule equals the context of the rules read as priorities |
| Tabelas.AplicarRegras | notebooks/gerar_descritivos_tabelas.py:41-73 | starting from the defaults, the rules applied one after another leave the record the priority reading gives: the last rule writing an attribute wins and the relationships collect in rule order |
| Tabelas.FraseDominio | notebooks/gerar_descritivos_tabelas.py:90-97 | the domain part always ends with "." |
| Tabelas.FraseTipo | notebooks/gerar_descritivos_tabelas.py:99-102 | the entity-type part is empty or ends with "." |
| Tabelas.FraseRelacionamentos | notebooks/gerar_descritivos_tabelas.py:104-109 | the relationships part is empty or ends with "." |
| Tabelas.DescritivoExpandido | notebooks/gerar_descritivos_tabelas.py:77-111 | the expanded description starts with `A tabela **<nome_logico>**` and ends with "." |
| Tabelas.PrefixoDaIntroducao | notebooks/gerar_descritivos_tabelas.py:88 | the introduction starts with `A tabela **<nome_logico>**` |
| Tabelas.Finalidades | notebooks/gerar_descritivos_tabelas.py:118-147 | every area lists three or four purposes, never none |
| Tabelas.FinalidadeUso | notebooks/gerar_descritivos_tabelas.py:113-147 | three or four purpose texts, those of the area the lower-cased name falls in |
| Tabelas.PrimeiraRegra | notebooks/gerar_descritivos_tabelas.py:118-147 | first-match lookup: the default exactly when no rule's keyword occurs in the name, otherwise the area of the first rule whose keyword occurs |
| Tabelas.AreaDeUso | notebooks/gerar_descritivos_tabelas.py:120-146 | the general area is chosen exactly when none of "dependente", "endereco", "faturamento", "medico" occurs in the lower-cased name |
| Tabelas.AreaDeUsoPrimeiraRegra | notebooks/gerar_descritivos_tabelas.py:118-147 | the if/elif chain picks the area of the first keyword found in the order dependente, endereco, faturamento, medico, and the general area otherwise |
| Tabelas.NotasDe | notebooks/gerar_descritivos_tabelas.py:149-177 | at most seven notes, from six independent checks |
| Tabelas.ConsideracoesTecnicas | notebooks/gerar_descritivos_tabelas.py:149-177 | the notes' texts, in the order the checks add them |
| Tabelas.ConsideracoesFaturamento | notebooks/gerar_descritivos_tabelas.py:156-168 | with "faturamento" in the name the notes start with the Segurança note, and the Performance and Retenção notes come later, next to each other in that order |
| Tabelas.Abertura | notebooks/gerar_descritivos_tabelas.py:181-189 | the opening of the report is seven lines |
| Tabelas.MolduraIndice | notebooks/gerar_descritivos_tabelas.py:181-197 | under an opening of seven lines and the index heading, line 8 + k is the index entry of table k + 1 |
| Tabelas.IndiceNumerado | notebooks/gerar_descritivos_tabelas.py:192-195 | line 8 + k of the report is the index entry numbered k + 1, linking table k by its lower-cased name |
| Tabelas.SeparadorEntreSecoes | notebooks/gerar_descritivos_tabelas.py:200-238 | in the detailed part each table's section follows the earlier ones, and a "\n---\n" line follows every section except the last |
| Tabelas.MarcadoresDe | notebooks/gerar_descritivos_tabelas.py:220-221 | the bullet loop writes one "- item" line per item, in order |
| Tabelas.IndiceDasTabelas | notebooks/gerar_descritivos_tabelas.py:193-195 | the index loop yields the numbered index of the tables |
| Tabelas.FichaDaTabela | notebooks/gerar_descritivos_tabelas.py:201-231 | the values worked out for one table are its friendly name, expanded description, purposes, notes and context |
| Tabelas.SecaoDaFicha | notebooks/gerar_descritivos_tabelas.py:204-235 | the lines written for one table are its section, the notes heading only when there are notes |
| Tabelas.SecaoComSeparador | notebooks/gerar_descritivos_tabelas.py:204-238 | one pass of the detail loop writes the section and the separator exactly when it is not the last table |
| Tabelas.DetalhesDasTabelas | notebooks/gerar_descritivos_tabelas.py:200-238 | the detail loop yields every table's section, separated as above |
| Tabelas.GeradorDescritivosTabelas.constructor | notebooks/gerar_descritivos_tabelas.py:16-17 | a new generator has no tables |
| Tabelas.GeradorDescritivosTabelas.AdicionarTabela | notebooks/gerar_descritivos_tabelas.py:24-29 | appends one table record and leaves the earlier ones unchanged |
| Tabelas.GeradorDescritivosTabelas.GerarRelatorioCompleto | notebooks/gerar_descritivos_tabelas.py:179-247 | the report is the join of the opening, the index, the separator, the detailed sections and the closing notes |
| Processamento.Coagir | notebooks/src/processamento.py:9-10 | a numeric cell is kept as it is by coercion |
| Processamento.Coluna | notebooks/src/processamento.py:9-10 | coercion keeps the length of a column and coerces each cell in place |
| Processamento.ColunaDeNumeros | notebooks/src/processamento.py:9-10 | coercing a column that is already numeric changes nothing |
| Processamento.Dividir | notebooks/src/processamento.py:13 | a missing operand gives missing; a non-zero finite divisor gives the exact quotient; a positive or negative number over 0 gives the infinity of its sign and 0/0 gives NaN (missing); missing arises only from a missing operand, 0/0 or two infinities |
| Processamento.Quocientes | notebooks/src/processamento.py:13 | `val1 / val2` has one quotient per row, row i from row i |
| Processamento.SoFinitos | notebooks/src/processamento.py:14-15 | the mask keeps finite cells and turns every other cell into missing |
| Processamento.ColunaNumerica | notebooks/src/processamento.py:9-10 | the coercion loop fills a fresh array with the coerced cells of the column, in order |
| Processamento.ProcurarZero | notebooks/src/processamento.py:11 | the scan answers true exactly when some coerced divisor is 0 |
| Processamento.DividirColunas | notebooks/src/processamento.py:13 | the division loop fills a fresh array with the row-by-row quotients |
| Processamento.AnularNaoFinitos | notebooks/src/processamento.py:14-15 | the blanking loop turns every non-finite quotient into missing, in place, and keeps the finite ones |
| Processamento.Processar | notebooks/src/processamento.py:5-16 | fails with the policy error exactly when the policy is not "nan", "inf" or "raise"; fails with the division error exactly when the policy is "raise" and some coerced divisor is 0; on success `val1` and `val2` are the coerced inputs and `val3` has one cell per row |
| Processamento.ProcessarTabela | notebooks/src/processamento.py:5-16 | the step-by-step transform (policy check, coercion, zero scan, division, in-place blanking) returns exactly what `processar` returns or raises, without touching the caller's columns |
| Processamento.PoliticaVerificadaPrimeiro | notebooks/src/processamento.py:6-7 | the call fails with the policy error exactly when the policy is not "nan", "inf" or "raise", whatever the data, zero divisors included |
| Processamento.ZeroSobRaise | notebooks/src/processamento.py:11-12 | the call fails with the division error exactly when the policy is "raise" and some coerced `val2` is 0; a missing `val2` does not count |
| Processamento.LinhasPreservadas | notebooks/src/processamento.py:8-16 | a successful call keeps the number and order of the rows, and its `val1` and `val2` are the coerced inputs |
| Processamento.QuocienteDefinido | notebooks/src/processamento.py:13 | with both operands present and a non-zero divisor, `val3` is their quotient under every policy |
| Processamento.AusentePropaga | notebooks/src/processamento.py:13 | a missing operand gives a missing `val3` under every policy |
| Processamento.NanSoFinitos | notebooks/src/processamento.py:14-15 | under "nan" the call succeeds and every `val3` is finite or missing, a finite raw quotient being kept |
| Processamento.InfQuocienteBruto | notebooks/src/processamento.py:13-16 | under "inf" `val3` is the raw quotient: a positive or negative number over 0 gives the infinity of its sign, 0/0 gives NaN (missing) |
| Processamento.NanAusenteSse | notebooks/src/processamento.py:13-15 | under "nan", with finite-or-missing inputs, `val3` is missing exactly when an operand is missing or `val2` is 0 |
| Processamento.NanAusenteComInfinito | notebooks/src/processamento.py:13-15 | with an infinite `val1` the equivalence above fails: +inf over 1 is blanked under "nan" |
| Processamento.Idempotente | notebooks/src/processamento.py:9-16 | running the transform again on its own `val1` and `val2` gives the same table |
| Processamento.Exemplo | notebooks/src/processamento.py:5-16 | rows (10, 2), (5, 0), (0, 0), (missing, 3) give 5, missing, missing, missing under "nan"; 5, +inf, NaN, missing under "inf"; the division error under "raise" |

## Left out

- `carregar_tabelas_json` (notebooks/gerar_descritivos_tabelas.py:19-22), `gerar_json` (notebooks/gerador_descritivos.py:186-188), `main`, `exemplo_uso` and every file write are left out. They are file and JSON I/O.
- Both `_obter_data_atual` functions are left out because they read the clock. The formatted timestamp is the parameter `data`.
- Default argument values are left out. Callers pass every argument.
- Campos.GeradorDescritivos.AdicionarCampo: records and option lists are values in the model. In Python, `self.campos` keeps the very dict that `adicionar_campo` returns, and that dict holds the caller's own `opcoes` list. So a caller who later edits the returned dict (its `descritivo`, say) or appends to its own list changes what `gerar_relatorio_markdown` prints. The model has no such aliasing. `Valid()` and the second ensures of `GerarRelatorioMarkdown` (line 2 of each section is the generated description) rest on it. They hold for a program whose callers do not modify the returned dicts or the lists they passed in.
- Table records loaded from JSON can carry other keys or miss one, which raises `KeyError`. Neither case is modelled: a table is exactly its two keys.
- Case mapping in `lower()` and `title()` covers ASCII and Latin-1 only. Within that range the model follows Python on which characters are cased, counting 'ª', 'µ' and 'º' as lower-case letters.
- `title()` keeps some letters unchanged that Python changes: 'µ' (Python gives Greek 'Μ'), 'ÿ' (Python gives 'Ÿ') and 'ß' (Python gives the two letters "Ss"). Those upper-case forms lie outside Latin-1. 'ª' and 'º' have no upper-case form, so keeping them matches Python.
- Python's `str()` of the float bounds `valor_min`/`valor_max` is not modelled. The model stores the bound as the text Python prints for it.
- The detail loop of `gerar_relatorio_completo` computes each table's values between writing lines. The model computes them first. All of them are pure, so the lines are the same.
- `pd.to_numeric` text parsing is the parameter `ler` of the transform, a function from a text cell to a value.
- IEEE-754 rounding, overflow and underflow are left out: a finite quotient is the exact real quotient. So 1e308 / 0.5, which IEEE-754 rounds to +inf (and "nan" then blanks), stays finite in the model, and a tiny non-zero quotient never becomes 0.
- Signed zeros are left out. The model treats every zero divisor as +0, so x / -0.0 is not the opposite infinity.
- NaN and missing are the same value, as in pandas. So the NaN that 0/0 gives under "inf" is `Ausente`.
- `processar` copies the whole DataFrame, but only the columns `val1`, `val2` and `val3` are modelled. Other columns and the index are not.
- The pandera schemas and `processar_validado` (notebooks/src/contrato.py, notebooks/src/processamento_validado.py) are left out. Their lazy validation happens in a library that is not part of this model. `LinhasPreservadas` states the float-or-missing output shape they would check.
- notebooks/src/visualizacao.py (plotting) is not part of this model.
- Under "nan", one might expect `val3` to be missing iff an operand is missing or `val2` is 0. The code does not do this when an input is infinite: +inf / 1 is blanked although neither operand is missing and the divisor is not zero. The model follows the code.
  - `Processamento.NanAusenteSse` proves the equivalence for finite-or-missing inputs. Under IEEE-754 the equivalence also needs each quotient of finite operands to stay finite: one that overflows to infinity is blanked too.
  - `Processamento.NanAusenteComInfinito` exhibits the infinite case.
