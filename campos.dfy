/** The field-description generator (`GeradorDescritivos`): one Portuguese
    sentence per form or database field, assembled from the field's optional
    attributes, and a Markdown report with one numbered section per field. */
module Campos {
  import opened Texto

  /** A field as `adicionar_campo` records it. Python's truthiness decides
      which optional attributes show up, so `None`, `0`, `""` and `[]` are
      kept apart. `valorMin`/`valorMax` hold the text Python's `str()`
      prints for the bound. */
  datatype Campo = Campo(
    nome: string,
    tipo: string,
    obrigatorio: bool,
    tamanhoMin: Option<int>,
    tamanhoMax: Option<int>,
    valorMin: Option<string>,
    valorMax: Option<string>,
    padrao: Option<string>,
    unico: bool,
    descricaoCustomizada: Option<string>,
    opcoes: Option<seq<string>>,
    descritivo: string)

  // ---------------------------------------------------------------------
  // Type names

  /** Type name (lower case) to its Portuguese description. */
  const TiposDescricao: map<string, string> := map[
    "string" := "texto",
    "text" := "texto",
    "varchar" := "texto",
    "char" := "caractere",
    "int" := "número inteiro",
    "integer" := "número inteiro",
    "float" := "número decimal",
    "decimal" := "número decimal",
    "double" := "número decimal",
    "boolean" := "valor booleano (verdadeiro/falso)",
    "bool" := "valor booleano (sim/não)",
    "date" := "data",
    "datetime" := "data e hora",
    "timestamp" := "registro de data e hora",
    "time" := "hora",
    "email" := "endereço de e-mail",
    "url" := "endereço URL",
    "phone" := "número de telefone",
    "cpf" := "CPF",
    "cnpj" := "CNPJ",
    "cep" := "CEP",
    "json" := "objeto JSON",
    "array" := "lista/array",
    "file" := "arquivo",
    "image" := "imagem",
    "password" := "senha"
  ]

  /** The table entry for the lower-cased type name, or the type name itself. */
  function TipoDescricao(tipo: string): (r: string)
    ensures Lower(tipo) in TiposDescricao ==> r == TiposDescricao[Lower(tipo)]
    ensures Lower(tipo) !in TiposDescricao ==> r == tipo
  {
    var chave := Lower(tipo);
    if chave in TiposDescricao then TiposDescricao[chave] else tipo
  }

  /** The lookup ignores the case of the type name. */
  lemma TipoDescricaoIgnoraCaixa(tipo: string)
    requires Lower(tipo) in TiposDescricao
    ensures TipoDescricao(tipo) == TipoDescricao(Lower(tipo))
  {
    LowerIdempotent(tipo);
  }

  lemma TipoDescricaoExemplos()
    ensures TipoDescricao("Email") == "endereço de e-mail"
    ensures TipoDescricao("uuid") == "uuid"
  {
    assert Lower("Email") == "email";
    assert Lower("uuid") == "uuid";
  }

  // ---------------------------------------------------------------------
  // Python truthiness of the optional attributes

  predicate TamanhoInformado(t: Option<int>) {
    t.Some? && t.value != 0
  }

  predicate TextoInformado(t: Option<string>) {
    t.Some? && t.value != ""
  }

  predicate OpcoesInformadas(o: Option<seq<string>>) {
    o.Some? && o.value != []
  }

  // ---------------------------------------------------------------------
  // The pieces of the sentence, in the order they are appended

  /** The field name with '_' turned into spaces and title-cased. */
  function NomeFormatado(nome: string): (r: string)
    ensures |r| == |nome|
    ensures '_' !in r
  {
    var espacado := Replace(nome, "_", " ");
    TitleKeepsUncased(espacado, '_');
    Title(espacado)
  }

  function Cabecalho(nome: string, tipo: string): string {
    "**" + NomeFormatado(nome) + "** é um campo do tipo " + TipoDescricao(tipo) + " "
  }

  const FraseObrigatorio := "de preenchimento **obrigatório** "
  const FraseOpcional := "de preenchimento **opcional** "

  function Obrigatoriedade(obrigatorio: bool): string {
    if obrigatorio then FraseObrigatorio else FraseOpcional
  }

  function MinimoCaracteres(n: int): string {
    "mínimo de " + IntToString(n) + " caracteres"
  }

  function MaximoCaracteres(n: int): string {
    "máximo de " + IntToString(n) + " caracteres"
  }

  /** The size restriction, as `_gerar_descritivo` appends it. */
  function RestricaoTamanho(min: Option<int>, max: Option<int>): string {
    if TamanhoInformado(min) || TamanhoInformado(max) then
      var restricoes :=
        (if TamanhoInformado(min) then [MinimoCaracteres(min.value)] else []) +
        (if TamanhoInformado(max) then [MaximoCaracteres(max.value)] else []);
      ", com " + Join(" e ", restricoes)
    else
      ""
  }

  /** Size bounds show up only when truthy, so 0 is left out like `None`;
      two bounds are joined with " e ". */
  lemma RestricaoTamanhoFrases(min: Option<int>, max: Option<int>)
    ensures RestricaoTamanho(min, max) == "" <==> !TamanhoInformado(min) && !TamanhoInformado(max)
    ensures TamanhoInformado(min) && !TamanhoInformado(max) ==>
              RestricaoTamanho(min, max) == ", com " + MinimoCaracteres(min.value)
    ensures !TamanhoInformado(min) && TamanhoInformado(max) ==>
              RestricaoTamanho(min, max) == ", com " + MaximoCaracteres(max.value)
    ensures TamanhoInformado(min) && TamanhoInformado(max) ==>
              RestricaoTamanho(min, max) == ", com " + MinimoCaracteres(min.value) + " e " + MaximoCaracteres(max.value)
  {
    var r := RestricaoTamanho(min, max);
    if TamanhoInformado(min) && TamanhoInformado(max) {
      var x, y := MinimoCaracteres(min.value), MaximoCaracteres(max.value);
      assert [x] + [y] == [x, y];
      JoinPair(" e ");
      assert r == ", com " + x + " e " + y;
    } else if TamanhoInformado(min) {
      var x := MinimoCaracteres(min.value);
      assert [x] + [] == [x];
      assert r == ", com " + x;
    } else if TamanhoInformado(max) {
      var y := MaximoCaracteres(max.value);
      assert [] + [y] == [y];
      assert r == ", com " + y;
    }
  }

  function MinimoValor(v: string): string {
    "valor mínimo de " + v
  }

  function MaximoValor(v: string): string {
    "valor máximo de " + v
  }

  /** The value restriction, as `_gerar_descritivo` appends it. */
  function RestricaoValor(min: Option<string>, max: Option<string>): string {
    if min.Some? || max.Some? then
      var restricoes :=
        (if min.Some? then [MinimoValor(min.value)] else []) +
        (if max.Some? then [MaximoValor(max.value)] else []);
      ", com " + Join(" e ", restricoes)
    else
      ""
  }

  /** Value bounds show up whenever given, a bound of 0 included; two bounds
      are joined with " e ". */
  lemma RestricaoValorFrases(min: Option<string>, max: Option<string>)
    ensures RestricaoValor(min, max) == "" <==> min.None? && max.None?
    ensures min.Some? && max.None? ==> RestricaoValor(min, max) == ", com " + MinimoValor(min.value)
    ensures min.None? && max.Some? ==> RestricaoValor(min, max) == ", com " + MaximoValor(max.value)
    ensures min.Some? && max.Some? ==>
              RestricaoValor(min, max) == ", com " + MinimoValor(min.value) + " e " + MaximoValor(max.value)
  {
    var r := RestricaoValor(min, max);
    if min.Some? && max.Some? {
      var x, y := MinimoValor(min.value), MaximoValor(max.value);
      assert [x] + [y] == [x, y];
      JoinPair(" e ");
      assert r == ", com " + x + " e " + y;
    } else if min.Some? {
      var x := MinimoValor(min.value);
      assert [x] + [] == [x];
      assert r == ", com " + x;
    } else if max.Some? {
      var y := MaximoValor(max.value);
      assert [] + [y] == [y];
      assert r == ", com " + y;
    }
  }

  /** Each option in double quotes. */
  function Aspas(opcoes: seq<string>): (r: seq<string>)
    ensures |r| == |opcoes|
  {
    seq(|opcoes|, i requires 0 <= i < |opcoes| => "\"" + opcoes[i] + "\"")
  }

  const PrefixoOpcoes := ". As opções válidas são: "

  function ListaOpcoes(opcoes: Option<seq<string>>): (r: string)
    ensures !OpcoesInformadas(opcoes) ==> r == "."
    ensures OpcoesInformadas(opcoes) ==> StartsWith(r, PrefixoOpcoes + "\"" + opcoes.value[0] + "\"")
  {
    if OpcoesInformadas(opcoes) then
      var ops := opcoes.value;
      JoinAsConcat(", ", Aspas(ops));
      PrefixoOpcoes + Join(", ", Aspas(ops))
    else
      "."
  }

  /** The options appear in their order, each quoted and preceded by ", "
      except the first. */
  lemma {:induction false} ListaOpcoesEmOrdem(ops: seq<string>)
    requires ops != []
    ensures ListaOpcoes(Some(ops)) ==
      PrefixoOpcoes + "\"" + ops[0] + "\"" +
      Concat(seq(|ops| - 1, k requires 0 <= k < |ops| - 1 => ", \"" + ops[k + 1] + "\""))
  {
    var q := Aspas(ops);
    JoinAsConcat(", ", q);
    var a := seq(|q| - 1, k requires 0 <= k < |q| - 1 => ", " + q[k + 1]);
    var b := seq(|ops| - 1, k requires 0 <= k < |ops| - 1 => ", \"" + ops[k + 1] + "\"");
    forall k | 0 <= k < |a|
      ensures a[k] == b[k]
    {
      assert q[k + 1] == "\"" + ops[k + 1] + "\"";
    }
    assert a == b;
  }

  function Unicidade(unico: bool): string {
    if unico then " O valor deste campo deve ser **único** no sistema, não podendo haver duplicatas." else ""
  }

  function ValorPadrao(padrao: Option<string>): string {
    if TextoInformado(padrao) then " Caso não seja informado, o valor padrão será: **" + padrao.value + "**." else ""
  }

  function TextoCustomizado(descricao: Option<string>): string {
    if TextoInformado(descricao) then " " + descricao.value else ""
  }

  /** `_gerar_descritivo`: the pieces above, joined in order. */
  function Descritivo(c: Campo): (r: string)
    ensures StartsWith(r, Cabecalho(c.nome, c.tipo) + Obrigatoriedade(c.obrigatorio))
    ensures TextoInformado(c.descricaoCustomizada) ==> EndsWith(r, " " + c.descricaoCustomizada.value)
  {
    var inicio := Cabecalho(c.nome, c.tipo) + Obrigatoriedade(c.obrigatorio);
    var resto := Complemento(c);
    Emenda(inicio, resto);
    inicio + resto
  }

  /** What follows the requirement phrase: restrictions, options,
      uniqueness, default value and the custom text, in that order. */
  function Complemento(c: Campo): (r: string)
    ensures TextoInformado(c.descricaoCustomizada) ==> EndsWith(r, " " + c.descricaoCustomizada.value)
  {
    var corpo := RestricaoTamanho(c.tamanhoMin, c.tamanhoMax)
                 + RestricaoValor(c.valorMin, c.valorMax)
                 + ListaOpcoes(c.opcoes)
                 + Unicidade(c.unico)
                 + ValorPadrao(c.padrao);
    Emenda(corpo, TextoCustomizado(c.descricaoCustomizada));
    corpo + TextoCustomizado(c.descricaoCustomizada)
  }

  /** The sentence is built from the attributes alone, not from a
      previously stored description. */
  lemma DescritivoIndependente(c: Campo, d: string)
    ensures Descritivo(c.(descritivo := d)) == Descritivo(c)
  {
  }

  /** The sentence says "obrigatório" exactly for required fields: the
      flag can be read back from the text. */
  lemma ObrigatoriedadeNoDescritivo(c: Campo)
    ensures StartsWith(Descritivo(c), Cabecalho(c.nome, c.tipo) + FraseObrigatorio) <==> c.obrigatorio
    ensures StartsWith(Descritivo(c), Cabecalho(c.nome, c.tipo) + FraseOpcional) <==> !c.obrigatorio
  {
    FraseLida(Descritivo(c), Cabecalho(c.nome, c.tipo), c.obrigatorio);
  }

  /** After a header `h`, the requirement phrase tells the flag apart. */
  lemma FraseLida(r: string, h: string, obrigatorio: bool)
    requires StartsWith(r, h + Obrigatoriedade(obrigatorio))
    ensures StartsWith(r, h + FraseObrigatorio) <==> obrigatorio
    ensures StartsWith(r, h + FraseOpcional) <==> !obrigatorio
  {
    assert FraseObrigatorio[20] == 'b' && FraseOpcional[20] == 'p';
    if obrigatorio {
      PrefixosExclusivos(r, h, FraseObrigatorio, FraseOpcional, 20);
    } else {
      PrefixosExclusivos(r, h, FraseOpcional, FraseObrigatorio, 20);
    }
  }

  /** A string that starts with `h + a` does not start with `h + b` when
      `a` and `b` differ at position `k`. */
  lemma PrefixosExclusivos(r: string, h: string, a: string, b: string, k: nat)
    requires StartsWith(r, h + a) && k < |a| && k < |b| && a[k] != b[k]
    ensures !StartsWith(r, h + b)
  {
    assert r[|h| + k] == (h + a)[|h| + k] == a[k];
    if |h + b| <= |r| {
      assert r[..|h + b|][|h| + k] == a[k] && (h + b)[|h| + k] == b[k];
    }
  }

  // ---------------------------------------------------------------------
  // The Markdown report

  /** The three header lines: title, timestamp, rule. */
  function Preambulo(titulo: string, data: string): (r: seq<string>)
    ensures |r| == 3
  {
    ["# " + titulo + "\n", "*Gerado automaticamente em " + data + "*\n", "---\n"]
  }

  function TituloSecao(i: nat, nome: string): string {
    "\n## " + NatToString(i) + ". " + nome + "\n"
  }

  function LinhaObrigatorio(obrigatorio: bool): string {
    "| **Obrigatório** | " + (if obrigatorio then "Sim" else "Não") + " |"
  }

  function Crases(opcoes: seq<string>): seq<string> {
    seq(|opcoes|, i requires 0 <= i < |opcoes| => "`" + opcoes[i] + "`")
  }

  function LinhaNome(nome: string): string { "| **Nome do Campo** | `" + nome + "` |" }
  function LinhaTipo(tipo: string): string { "| **Tipo de Dados** | `" + tipo + "` |" }
  function LinhaTamanhoMinimo(n: int): string { "| **Tamanho Mínimo** | " + IntToString(n) + " caracteres |" }
  function LinhaTamanhoMaximo(n: int): string { "| **Tamanho Máximo** | " + IntToString(n) + " caracteres |" }
  function LinhaValorMinimo(v: string): string { "| **Valor Mínimo** | " + v + " |" }
  function LinhaValorMaximo(v: string): string { "| **Valor Máximo** | " + v + " |" }
  function LinhaPadrao(p: string): string { "| **Valor Padrão** | `" + p + "` |" }
  function LinhaOpcoes(ops: seq<string>): string { "| **Opções Válidas** | " + Join(", ", Crases(ops)) + " |" }

  // Each optional row of a field's specification table: one line or none.
  function TamanhoMinimoLinha(c: Campo): seq<string> {
    if TamanhoInformado(c.tamanhoMin) then [LinhaTamanhoMinimo(c.tamanhoMin.value)] else []
  }
  function TamanhoMaximoLinha(c: Campo): seq<string> {
    if TamanhoInformado(c.tamanhoMax) then [LinhaTamanhoMaximo(c.tamanhoMax.value)] else []
  }
  function ValorMinimoLinha(c: Campo): seq<string> {
    if c.valorMin.Some? then [LinhaValorMinimo(c.valorMin.value)] else []
  }
  function ValorMaximoLinha(c: Campo): seq<string> {
    if c.valorMax.Some? then [LinhaValorMaximo(c.valorMax.value)] else []
  }
  function PadraoLinha(c: Campo): seq<string> {
    if TextoInformado(c.padrao) then [LinhaPadrao(c.padrao.value)] else []
  }
  function UnicoLinha(c: Campo): seq<string> {
    if c.unico then ["| **Único** | Sim |"] else []
  }
  function OpcoesLinha(c: Campo): seq<string> {
    if OpcoesInformadas(c.opcoes) then [LinhaOpcoes(c.opcoes.value)] else []
  }

  /** The optional rows of a field's specification table, in order. */
  function LinhasOpcionais(c: Campo): seq<string> {
    TamanhoMinimoLinha(c) + TamanhoMaximoLinha(c) + ValorMinimoLinha(c) + ValorMaximoLinha(c)
    + PadraoLinha(c) + UnicoLinha(c) + OpcoesLinha(c)
  }

  /** `LinhasOpcionais` as a value. The rows looked up through it stay a
      single term in proofs about where a section sits in the report: they
      never need the rows' text. */
  const Opcionais: Campo -> seq<string> := LinhasOpcionais

  /** The lines every section has: heading, description and the fixed rows
      of the specification table. */
  function LinhasFixas(i: nat, c: Campo): (r: seq<string>)
    ensures |r| == 8
  {
    [ TituloSecao(i, c.nome),
      c.descritivo + "\n",
      "\n### Especificações Técnicas\n",
      "| Propriedade | Valor |",
      "|-------------|-------|",
      LinhaNome(c.nome),
      LinhaTipo(c.tipo),
      LinhaObrigatorio(c.obrigatorio) ]
  }

  /** The lines of the section of the field numbered `i`. */
  function Secao(i: nat, c: Campo): seq<string> {
    LinhasFixas(i, c) + Opcionais(c) + [""]
  }

  /** The sections of the fields, numbered from 1 in insertion order. */
  function Secoes(cs: seq<Campo>): seq<string> {
    Numerados(cs, Secao)
  }

  function LinhasRelatorio(titulo: string, data: string, cs: seq<Campo>): seq<string> {
    Preambulo(titulo, data) + Secoes(cs)
  }

  /** The line at which the section of field `k` (counted from 0) starts. */
  function InicioSecao(cs: seq<Campo>, k: nat): nat
    requires k <= |cs|
  {
    3 + |Secoes(cs[..k])|
  }

  /** The report holds the section of field `k` (counted from 0) at the
      line `InicioSecao(cs, k)`: its heading carries the number k + 1 and its
      name, then come its description and its specification table. */
  lemma SecaoNoRelatorio(titulo: string, data: string, cs: seq<Campo>, k: nat)
    requires k < |cs|
    ensures var linhas := LinhasRelatorio(titulo, data, cs);
            var j := InicioSecao(cs, k);
            var secao := Secao(k + 1, cs[k]);
            j + |secao| <= |linhas| && linhas[j..j + |secao|] == secao
  {
    var p := Preambulo(titulo, data);
    NumeradosFatia(p, cs, Secao, k);
    assert LinhasRelatorio(titulo, data, cs) == p + Numerados(cs, Secao);
    assert InicioSecao(cs, k) == |p| + |Numerados(cs[..k], Secao)|;
  }

  /** The second line of the section of field `k` is that field's description. */
  lemma DescritivoNoRelatorio(titulo: string, data: string, cs: seq<Campo>, k: nat)
    requires k < |cs|
    ensures InicioSecao(cs, k) + 1 < |LinhasRelatorio(titulo, data, cs)|
    ensures LinhasRelatorio(titulo, data, cs)[InicioSecao(cs, k) + 1] == cs[k].descritivo + "\n"
  {
    SecaoNoRelatorio(titulo, data, cs, k);
    SegundaLinha(k + 1, cs[k]);
    LinhaDaFatia(LinhasRelatorio(titulo, data, cs), InicioSecao(cs, k), Secao(k + 1, cs[k]), 1);
  }

  /** The second line of a section is the field's description. */
  lemma SegundaLinha(i: nat, c: Campo)
    ensures 1 < |Secao(i, c)| && Secao(i, c)[1] == c.descritivo + "\n"
  {
    assert Secao(i, c)[1] == LinhasFixas(i, c)[1];
  }

  /** A line of a block that sits at `j` is the line of the whole at the
      same offset from `j`. */
  lemma LinhaDaFatia(linhas: seq<string>, j: nat, bloco: seq<string>, m: nat)
    requires j + |bloco| <= |linhas| && linhas[j..j + |bloco|] == bloco && m < |bloco|
    ensures j + m < |linhas| && linhas[j + m] == bloco[m]
  {
    assert linhas[j + m] == linhas[j..j + |bloco|][m];
  }

  /** The body of the report loop for one field: the fixed lines, then
      the optional rows in the order the report lists them, then a blank line. */
  method SecaoDoCampo(i: nat, campo: Campo) returns (secao: seq<string>)
    ensures secao == Secao(i, campo)
  {
    var opcionais := LinhasOpcionaisDoCampo(campo);
    secao := [ TituloSecao(i, campo.nome),
               campo.descritivo + "\n",
               "\n### Especificações Técnicas\n",
               "| Propriedade | Valor |",
               "|-------------|-------|",
               LinhaNome(campo.nome),
               LinhaTipo(campo.tipo),
               LinhaObrigatorio(campo.obrigatorio) ];
    secao := secao + opcionais + [""];
  }

  /** The optional rows, each appended only when its attribute is informed. */
  method LinhasOpcionaisDoCampo(campo: Campo) returns (opcionais: seq<string>)
    ensures opcionais == LinhasOpcionais(campo)
  {
    opcionais := [];
    if TamanhoInformado(campo.tamanhoMin) {
      opcionais := opcionais + [LinhaTamanhoMinimo(campo.tamanhoMin.value)];
    }
    assert opcionais == TamanhoMinimoLinha(campo);
    if TamanhoInformado(campo.tamanhoMax) {
      opcionais := opcionais + [LinhaTamanhoMaximo(campo.tamanhoMax.value)];
    }
    assert opcionais == TamanhoMinimoLinha(campo) + TamanhoMaximoLinha(campo);
    if campo.valorMin.Some? {
      opcionais := opcionais + [LinhaValorMinimo(campo.valorMin.value)];
    }
    assert opcionais == TamanhoMinimoLinha(campo) + TamanhoMaximoLinha(campo) + ValorMinimoLinha(campo);
    if campo.valorMax.Some? {
      opcionais := opcionais + [LinhaValorMaximo(campo.valorMax.value)];
    }
    assert opcionais == TamanhoMinimoLinha(campo) + TamanhoMaximoLinha(campo) + ValorMinimoLinha(campo)
                        + ValorMaximoLinha(campo);
    if TextoInformado(campo.padrao) {
      opcionais := opcionais + [LinhaPadrao(campo.padrao.value)];
    }
    assert opcionais == TamanhoMinimoLinha(campo) + TamanhoMaximoLinha(campo) + ValorMinimoLinha(campo)
                        + ValorMaximoLinha(campo) + PadraoLinha(campo);
    if campo.unico {
      opcionais := opcionais + ["| **Único** | Sim |"];
    }
    assert opcionais == TamanhoMinimoLinha(campo) + TamanhoMaximoLinha(campo) + ValorMinimoLinha(campo)
                        + ValorMaximoLinha(campo) + PadraoLinha(campo) + UnicoLinha(campo);
    if OpcoesInformadas(campo.opcoes) {
      opcionais := opcionais + [LinhaOpcoes(campo.opcoes.value)];
    }
  }

  // ---------------------------------------------------------------------
  // The generator object

  class GeradorDescritivos {
    var campos: seq<Campo>

    /** Every recorded field carries the description generated from it. */
    ghost predicate Valid()
      reads this
    {
      forall i :: 0 <= i < |campos| ==> campos[i].descritivo == Descritivo(campos[i])
    }

    constructor ()
      ensures Valid() && campos == []
    {
      campos := [];
    }

    /** `adicionar_campo`: records one field with its generated description
        and returns that record. */
    method AdicionarCampo(
      nome: string, tipo: string, obrigatorio: bool,
      tamanhoMin: Option<int>, tamanhoMax: Option<int>,
      valorMin: Option<string>, valorMax: Option<string>,
      padrao: Option<string>, unico: bool,
      descricaoCustomizada: Option<string>, opcoes: Option<seq<string>>)
      returns (campo: Campo)
      requires Valid()
      modifies this
      ensures Valid()
      ensures campos == old(campos) + [campo]
      ensures campo.nome == nome && campo.tipo == tipo && campo.obrigatorio == obrigatorio
      ensures campo.tamanhoMin == tamanhoMin && campo.tamanhoMax == tamanhoMax
      ensures campo.valorMin == valorMin && campo.valorMax == valorMax
      ensures campo.padrao == padrao && campo.unico == unico
      ensures campo.descricaoCustomizada == descricaoCustomizada && campo.opcoes == opcoes
      ensures campo.descritivo == Descritivo(campo)
    {
      campo := Campo(nome, tipo, obrigatorio, tamanhoMin, tamanhoMax, valorMin, valorMax,
                     padrao, unico, descricaoCustomizada, opcoes, "");
      DescritivoIndependente(campo, Descritivo(campo));
      campo := campo.(descritivo := Descritivo(campo));
      campos := campos + [campo];
    }

    /** `gerar_relatorio_markdown`, with the timestamp passed in as `data`:
        the header lines followed by one section per recorded field, joined
        with newlines. */
    method GerarRelatorioMarkdown(titulo: string, data: string) returns (relatorio: string)
      requires Valid()
      ensures relatorio == Join("\n", LinhasRelatorio(titulo, data, campos))
      ensures forall k :: 0 <= k < |campos| ==>
                InicioSecao(campos, k) + 1 < |LinhasRelatorio(titulo, data, campos)|
                && LinhasRelatorio(titulo, data, campos)[InicioSecao(campos, k) + 1] == Descritivo(campos[k]) + "\n"
    {
      var secoes := SecoesDosCampos();
      relatorio := Join("\n", Preambulo(titulo, data) + secoes);
      forall k | 0 <= k < |campos|
        ensures InicioSecao(campos, k) + 1 < |LinhasRelatorio(titulo, data, campos)|
        ensures LinhasRelatorio(titulo, data, campos)[InicioSecao(campos, k) + 1] == Descritivo(campos[k]) + "\n"
      {
        DescritivoNoRelatorio(titulo, data, campos, k);
      }
    }

    /** The loop of `gerar_relatorio_markdown` over the recorded fields. */
    method SecoesDosCampos() returns (secoes: seq<string>)
      ensures secoes == Secoes(campos)
    {
      var cs := campos;
      secoes := [];
      var i := 0;
      while i < |cs|
        invariant 0 <= i <= |cs|
        invariant secoes == Secoes(cs[..i])
      {
        var secao := SecaoDoCampo(i + 1, cs[i]);
        NumeradosPasso(cs, Secao, i);
        secoes := secoes + secao;
        i := i + 1;
      }
      assert cs[..i] == cs;
    }
  }
}
