/** The table-description generator (`GeradorDescritivosTabelas`): from a
    logical table name and a one-line description it derives a friendly
    name, a context record, an expanded description, a list of purposes and
    a list of technical notes, and renders them all as one Markdown report. */
module Tabelas {
  import opened Texto

  /** A table as `adicionar_tabela` records it. */
  datatype Tabela = Tabela(nomeLogico: string, descricaoBasica: string)

  // ---------------------------------------------------------------------
  // Friendly name

  /** `_gerar_nome_amigavel`: the prefixes "DADOS_", "TB_" and "TBL_" are
      removed (in that order, anywhere in the name), underscores become
      spaces and the result is title-cased. */
  function NomeAmigavel(nomeLogico: string): (r: string)
    ensures '_' !in r
    ensures |r| <= |nomeLogico|
  {
    var semPrefixos := Replace(Replace(Replace(nomeLogico, "DADOS_", ""), "TB_", ""), "TBL_", "");
    var espacado := Replace(semPrefixos, "_", " ");
    TitleKeepsUncased(espacado, '_');
    Title(espacado)
  }

  // ---------------------------------------------------------------------
  // Context inference

  /** The context record `_inferir_contexto` returns. */
  datatype Contexto = Contexto(
    tipoEntidade: string,
    dominio: string,
    relacionamentos: seq<string>,
    importancia: string)

  const ContextoPadrao := Contexto("dados", "geral", [], "média")

  const TipoDependente := "entidade dependente"
  const TipoLocalizacao := "dados de localização"
  const TipoTransacao := "transação financeira"
  const TipoProfissional := "cadastro de profissional"
  const DominioFinanceiro := "financeiro"
  const DominioSaude := "saúde"
  const DominioSeguros := "seguros"
  const ImportanciaAlta := "alta"

  const RelacaoDependente := "relacionada a titular ou beneficiário principal"
  const RelacaoEndereco := "pode estar vinculada a pessoas, empresas ou estabelecimentos"
  const RelacaoFaturamento := "relacionada a apólices e seguros"
  const RelacaoMedico := "referenciado em atendimentos e procedimentos"

  /** Which keyword rules of `_inferir_contexto` fire, each tested on the
      lower-cased name and/or description exactly as the rule does. */
  datatype Indicios = Indicios(
    dependente: bool, endereco: bool, faturamento: bool, medico: bool, seguro: bool)

  function IndiciosDe(nomeLogico: string, descricao: string): (r: Indicios)
    ensures r.dependente <==> Ocorre(Lower(nomeLogico), "dependente") || Ocorre(Lower(descricao), "dependente")
    ensures r.endereco <==> Ocorre(Lower(nomeLogico), "endereco") || Ocorre(Lower(descricao), "endereço")
    ensures r.faturamento <==> Ocorre(Lower(nomeLogico), "faturamento") || Ocorre(Lower(descricao), "fatura")
    ensures r.medico <==> Ocorre(Lower(nomeLogico), "medico") || Ocorre(Lower(descricao), "médico")
    ensures r.seguro <==> Ocorre(Lower(descricao), "apolice") || Ocorre(Lower(descricao), "seguro")
  {
    var n := Lower(nomeLogico);
    var d := Lower(descricao);
    ContainsAt(n, "dependente"); ContainsAt(d, "dependente");
    ContainsAt(n, "endereco"); ContainsAt(d, "endereço");
    ContainsAt(n, "faturamento"); ContainsAt(d, "fatura");
    ContainsAt(n, "medico"); ContainsAt(d, "médico");
    ContainsAt(d, "apolice"); ContainsAt(d, "seguro");
    Indicios(
      Contains(n, "dependente") || Contains(d, "dependente"),
      Contains(n, "endereco") || Contains(d, "endereço"),
      Contains(n, "faturamento") || Contains(d, "fatura"),
      Contains(n, "medico") || Contains(d, "médico"),
      Contains(d, "apolice") || Contains(d, "seguro"))
  }

  predicate Nenhum(k: Indicios) {
    !k.dependente && !k.endereco && !k.faturamento && !k.medico && !k.seguro
  }

  /** The rules read as priorities: every attribute takes the value of the
      last rule that writes it, and relationships collect in rule order. */
  function ContextoDe(k: Indicios): (r: Contexto)
    ensures Nenhum(k) ==> r == ContextoPadrao
    ensures k.seguro ==> r.dominio == DominioSeguros && r.importancia == ImportanciaAlta
    ensures |r.relacionamentos| <= 4
    ensures r.relacionamentos == [] <==> !k.dependente && !k.endereco && !k.faturamento && !k.medico
  {
    Contexto(
      if k.medico then TipoProfissional
      else if k.faturamento then TipoTransacao
      else if k.endereco then TipoLocalizacao
      else if k.dependente then TipoDependente
      else "dados",
      if k.seguro then DominioSeguros
      else if k.medico then DominioSaude
      else if k.faturamento then DominioFinanceiro
      else "geral",
      (if k.dependente then [RelacaoDependente] else [])
      + (if k.endereco then [RelacaoEndereco] else [])
      + (if k.faturamento then [RelacaoFaturamento] else [])
      + (if k.medico then [RelacaoMedico] else []),
      if k.seguro || k.faturamento then ImportanciaAlta else "média")
  }

  function ContextoInferido(nomeLogico: string, descricao: string): Contexto {
    ContextoDe(IndiciosDe(nomeLogico, descricao))
  }

  /** `_inferir_contexto`: starts from the defaults and lets each rule, in
      order, overwrite attributes and append a relationship. */
  method InferirContexto(nomeLogico: string, descricao: string) returns (contexto: Contexto)
    ensures contexto == ContextoInferido(nomeLogico, descricao)
  {
    var k := IndiciosDe(nomeLogico, descricao);
    contexto := AplicarRegras(k);
  }

  /** The rule chain of `_inferir_contexto`, once the keyword tests are known. */
  method AplicarRegras(k: Indicios) returns (contexto: Contexto)
    ensures contexto == ContextoDe(k)
  {
    contexto := ContextoPadrao;
    if k.dependente {
      contexto := contexto.(tipoEntidade := TipoDependente,
                            relacionamentos := contexto.relacionamentos + [RelacaoDependente]);
    }
    if k.endereco {
      contexto := contexto.(tipoEntidade := TipoLocalizacao,
                            relacionamentos := contexto.relacionamentos + [RelacaoEndereco]);
    }
    if k.faturamento {
      contexto := contexto.(tipoEntidade := TipoTransacao, dominio := DominioFinanceiro,
                            importancia := ImportanciaAlta,
                            relacionamentos := contexto.relacionamentos + [RelacaoFaturamento]);
    }
    if k.medico {
      contexto := contexto.(tipoEntidade := TipoProfissional, dominio := DominioSaude,
                            relacionamentos := contexto.relacionamentos + [RelacaoMedico]);
    }
    if k.seguro {
      contexto := contexto.(dominio := DominioSeguros, importancia := ImportanciaAlta);
    }
  }

  // ---------------------------------------------------------------------
  // Expanded description

  function Introducao(t: Tabela): string {
    var prefixo := "A tabela **" + t.nomeLogico + "**";
    prefixo + (" (" + NomeAmigavel(t.nomeLogico) + ") é responsável por armazenar " + Lower(t.descricaoBasica))
  }

  /** The domain sentence, or just "." for the general domain. */
  function FraseDominio(c: Contexto): (r: string)
    ensures EndsWith(r, ".")
  {
    if c.dominio != "geral" then
      var s := " Esta tabela faz parte do domínio **" + c.dominio + "** do sistema"
               + (if c.importancia == ImportanciaAlta then " e possui **importância crítica** para as operações do negócio" else "");
      Emenda(s, ".");
      s + "."
    else
      "."
  }

  function FraseTipo(c: Contexto): (r: string)
    ensures r == "" || EndsWith(r, ".")
  {
    if c.tipoEntidade != "dados" then
      var s := " Trata-se de uma tabela de **" + c.tipoEntidade + "**";
      Emenda(s, ".");
      s + "."
    else
      ""
  }

  function FraseRelacionamentos(c: Contexto): (r: string)
    ensures r == "" || EndsWith(r, ".")
  {
    var rs := c.relacionamentos;
    if rs != [] then
      var s := " Esta tabela está " + rs[0] + (if |rs| > 1 then ", além de " + Join(", ", rs[1..]) else "");
      Emenda(s, ".");
      s + "."
    else
      ""
  }

  /** `_gerar_descritivo_expandido`: introduction, domain, entity type and
      relationships; the domain part always closes a sentence with ".", and
      so does each later part that is present. */
  function DescritivoExpandido(t: Tabela): (r: string)
    ensures StartsWith(r, "A tabela **" + t.nomeLogico + "**")
    ensures EndsWith(r, ".")
  {
    var c := ContextoInferido(t.nomeLogico, t.descricaoBasica);
    var intro := Introducao(t);
    var resto := FraseDominio(c) + FraseTipo(c) + FraseRelacionamentos(c);
    assert EndsWith(resto, ".") by {
      FimComPonto(FraseDominio(c), FraseTipo(c), FraseRelacionamentos(c));
    }
    PrefixoDaIntroducao(t);
    Emenda(intro, resto);
    ComecoTransitivo(intro + resto, intro, "A tabela **" + t.nomeLogico + "**");
    FimTransitivo(intro + resto, resto, ".");
    intro + resto
  }

  lemma PrefixoDaIntroducao(t: Tabela)
    ensures StartsWith(Introducao(t), "A tabela **" + t.nomeLogico + "**")
  {
    var p := "A tabela **" + t.nomeLogico + "**";
    var s := " (" + NomeAmigavel(t.nomeLogico) + ") é responsável por armazenar " + Lower(t.descricaoBasica);
    Emenda(p, s);
  }

  /** Each of the three closing parts is empty or ends with ".". */
  lemma FimComPonto(a: string, b: string, c: string)
    requires EndsWith(a, ".")
    requires b == [] || EndsWith(b, ".")
    requires c == [] || EndsWith(c, ".")
    ensures EndsWith(a + b + c, ".")
  {
  }

  lemma ComecoTransitivo(r: string, s: string, p: string)
    requires StartsWith(r, s) && StartsWith(s, p)
    ensures StartsWith(r, p)
  {
    assert r[..|p|] == s[..|p|];
  }

  lemma FimTransitivo(r: string, s: string, p: string)
    requires EndsWith(r, s) && EndsWith(s, p)
    ensures EndsWith(r, p)
  {
    assert r[|r| - |p|..] == s[|s| - |p|..];
  }

  // ---------------------------------------------------------------------
  // Purposes

  /** The areas whose keywords `_gerar_finalidade_uso` looks for, and the
      general fallback. */
  datatype Area = Dependente | Endereco | Faturamento | Medico | Geral

  /** The purposes `_gerar_finalidade_uso` can list. */
  datatype Finalidade =
    | CadastroDependentes | ElegibilidadeDependentes | RelatoriosFamiliares
    | RegistroEnderecos | ValidacaoLocalizacao | DistribuicaoGeografica
    | RegistroFaturamento | ControleFinanceiro | RelatoriosReceita | Cobranca
    | CadastroMedicos | Especialidades | RedeReferenciada | UtilizacaoRede
    | Armazenamento | OperacoesTransacionais | RelatoriosGerenciais

  function TextoFinalidade(f: Finalidade): string {
    match f
    case CadastroDependentes => "Cadastro e gestão de dependentes vinculados a titulares de planos ou seguros"
    case ElegibilidadeDependentes => "Controle de elegibilidade e direitos dos dependentes"
    case RelatoriosFamiliares => "Geração de relatórios familiares e análises demográficas"
    case RegistroEnderecos => "Registro de endereços para correspondências e comunicações oficiais"
    case ValidacaoLocalizacao => "Validação de localização geográfica para cobertura de serviços"
    case DistribuicaoGeografica => "Análises de distribuição geográfica e regionalização"
    case RegistroFaturamento => "Registro de todas as transações de faturamento de apólices e seguros"
    case ControleFinanceiro => "Controle financeiro e conciliação de pagamentos"
    case RelatoriosReceita => "Base para relatórios gerenciais, auditorias e análises de receita"
    case Cobranca => "Suporte a processos de cobrança e gestão de inadimplência"
    case CadastroMedicos => "Cadastro completo de médicos e profissionais de saúde credenciados"
    case Especialidades => "Controle de especialidades, credenciamentos e vínculos"
    case RedeReferenciada => "Suporte à rede referenciada e direcionamento de atendimentos"
    case UtilizacaoRede => "Base para análises de utilização e gestão da rede credenciada"
    case Armazenamento => "Armazenamento estruturado de informações essenciais ao negócio"
    case OperacoesTransacionais => "Suporte a operações transacionais e consultas do sistema"
    case RelatoriosGerenciais => "Base para relatórios e análises gerenciais"
  }

  /** The purposes listed for each area, in the order they are appended:
      three or four, never none. */
  function Finalidades(a: Area): (r: seq<Finalidade>)
    ensures 3 <= |r| <= 4
    ensures r != []
  {
    match a
    case Dependente => [CadastroDependentes, ElegibilidadeDependentes, RelatoriosFamiliares]
    case Endereco => [RegistroEnderecos, ValidacaoLocalizacao, DistribuicaoGeografica]
    case Faturamento => [RegistroFaturamento, ControleFinanceiro, RelatoriosReceita, Cobranca]
    case Medico => [CadastroMedicos, Especialidades, RedeReferenciada, UtilizacaoRede]
    case Geral => [Armazenamento, OperacoesTransacionais, RelatoriosGerenciais]
  }

  /** The if/elif chain of `_gerar_finalidade_uso`: the first keyword found
      in the lower-cased name, in the order dependente, endereco,
      faturamento, medico, picks the area; the description plays no part. */
  function AreaDeUso(nomeLogico: string): (r: Area)
    ensures r == Geral <==> forall j :: 0 <= j < |RegrasFinalidade| ==> !Contains(Lower(nomeLogico), RegrasFinalidade[j].0)
  {
    var n := Lower(nomeLogico);
    assert RegrasFinalidade[0].0 == "dependente" && RegrasFinalidade[1].0 == "endereco"
           && RegrasFinalidade[2].0 == "faturamento" && RegrasFinalidade[3].0 == "medico";
    if Contains(n, "dependente") then Dependente
    else if Contains(n, "endereco") then Endereco
    else if Contains(n, "faturamento") then Faturamento
    else if Contains(n, "medico") then Medico
    else Geral
  }

  /** `_gerar_finalidade_uso`: the texts of the purposes of the area the
      name falls in, three or four of them. */
  function FinalidadeUso(nomeLogico: string): (r: seq<string>)
    ensures 3 <= |r| <= 4 && |r| == |Finalidades(AreaDeUso(nomeLogico))|
    ensures forall i :: 0 <= i < |r| ==> r[i] == TextoFinalidade(Finalidades(AreaDeUso(nomeLogico))[i])
  {
    Rotulos(Finalidades(AreaDeUso(nomeLogico)), TextoFinalidade)
  }

  /** The keyword rules, in the order they are tried. */
  const RegrasFinalidade: seq<(string, Area)> := [
    ("dependente", Dependente),
    ("endereco", Endereco),
    ("faturamento", Faturamento),
    ("medico", Medico)]

  /** First-match lookup: the area of the first rule whose keyword occurs
      in `n`, or `padrao` when none does. */
  function PrimeiraRegra(n: string, regras: seq<(string, Area)>, padrao: Area): (r: Area)
    ensures ((forall j :: 0 <= j < |regras| ==> !Contains(n, regras[j].0)) && r == padrao)
            || (exists j :: 0 <= j < |regras| && Contains(n, regras[j].0) && r == regras[j].1
                            && forall i :: 0 <= i < j ==> !Contains(n, regras[i].0))
    decreases |regras|
  {
    if regras == [] then padrao
    else if Contains(n, regras[0].0) then regras[0].1
    else
      var cauda := regras[1..];
      var r := PrimeiraRegra(n, cauda, padrao);
      assert ((forall j :: 0 <= j < |regras| ==> !Contains(n, regras[j].0)) && r == padrao)
             || (exists j :: 0 <= j < |regras| && Contains(n, regras[j].0) && r == regras[j].1
                             && forall i :: 0 <= i < j ==> !Contains(n, regras[i].0)) by {
        if forall j :: 0 <= j < |cauda| ==> !Contains(n, cauda[j].0) {
          forall j | 1 <= j < |regras| ensures !Contains(n, regras[j].0) {
            assert regras[j] == cauda[j - 1];
          }
        } else {
          var j :| 0 <= j < |cauda| && Contains(n, cauda[j].0) && r == cauda[j].1
                   && forall i :: 0 <= i < j ==> !Contains(n, cauda[i].0);
          assert regras[j + 1] == cauda[j];
          forall i | 1 <= i < j + 1 ensures !Contains(n, regras[i].0) {
            assert regras[i] == cauda[i - 1];
          }
        }
      }
      r
  }

  /** The if/elif chain is the first-match lookup in the rule table. */
  lemma AreaDeUsoPrimeiraRegra(nomeLogico: string)
    ensures AreaDeUso(nomeLogico) == PrimeiraRegra(Lower(nomeLogico), RegrasFinalidade, Geral)
  {
    var n := Lower(nomeLogico);
    var rs := RegrasFinalidade;
    assert rs[1..] == [("endereco", Endereco), ("faturamento", Faturamento), ("medico", Medico)];
    assert rs[1..][1..] == [("faturamento", Faturamento), ("medico", Medico)];
    assert rs[1..][1..][1..] == [("medico", Medico)];
    assert rs[1..][1..][1..][1..] == [];
  }

  // ---------------------------------------------------------------------
  // Technical notes

  /** The technical notes `_gerar_consideracoes_tecnicas` can add. */
  datatype Nota = Seguranca | PrivacidadeSaude | PrivacidadeDependente | Performance
                | Retencao | Integridade | IntegridadeReferencial

  function TextoNota(n: Nota): string {
    match n
    case Seguranca => "**Segurança**: Esta tabela contém dados financeiros sensíveis e deve ter controles de acesso rigorosos e auditoria habilitada"
    case PrivacidadeSaude => "**Privacidade**: Dados de profissionais de saúde estão sujeitos à LGPD e regulamentações do setor de saúde"
    case PrivacidadeDependente => "**Privacidade**: Contém dados pessoais protegidos pela LGPD, especialmente quando envolvem menores de idade"
    case Performance => "**Performance**: Tabela com alto volume de transações, recomenda-se particionamento por período e índices otimizados"
    case Retencao => "**Retenção**: Definir política de arquivamento para dados históricos conforme requisitos legais e fiscais"
    case Integridade => "**Integridade**: Implementar validações de CEP, normalização de endereços e integração com APIs de geolocalização"
    case IntegridadeReferencial => "**Integridade Referencial**: Manter chaves estrangeiras e constraints para garantir consistência dos relacionamentos"
  }

  /** A financial keyword in the lower-cased name or description. */
  predicate Financeiro(n: string, d: string) {
    Contains(n, "faturamento") || Contains(d, "faturamento")
    || Contains(n, "financeiro") || Contains(d, "financeiro")
    || Contains(n, "pagamento") || Contains(d, "pagamento")
  }

  /** The notes of the first three checks. */
  function NotasIniciais(n: string, d: string): (r: seq<Nota>)
    ensures |r| <= 3
  {
    Se(Financeiro(n, d), [Seguranca])
    + Se(Contains(n, "medico") || Contains(d, "profissional"), [PrivacidadeSaude])
    + Se(Contains(n, "dependente"), [PrivacidadeDependente])
  }

  /** The six independent checks of `_gerar_consideracoes_tecnicas`, each
      adding its notes in this order, tested on the lower-cased name and
      description. */
  function NotasDe(t: Tabela): (r: seq<Nota>)
    ensures |r| <= 7
  {
    var n := Lower(t.nomeLogico);
    var d := Lower(t.descricaoBasica);
    NotasIniciais(n, d)
    + Se(Contains(n, "faturamento"), [Performance, Retencao])
    + Se(Contains(n, "endereco"), [Integridade])
    + Se(Contains(n, "dependente") || Contains(n, "medico"), [IntegridadeReferencial])
  }

  /** The list `xs` when the check `c` holds, nothing otherwise. */
  function Se<T>(c: bool, xs: seq<T>): (r: seq<T>)
    ensures |r| <= |xs|
  {
    if c then xs else []
  }

  /** `_gerar_consideracoes_tecnicas`: the texts of the notes, in order. */
  function ConsideracoesTecnicas(t: Tabela): (r: seq<string>)
    ensures |r| <= 7 && |r| == |NotasDe(t)|
    ensures forall i :: 0 <= i < |r| ==> r[i] == TextoNota(NotasDe(t)[i])
  {
    Rotulos(NotasDe(t), TextoNota)
  }

  /** With "faturamento" in the name the notes open with the security note
      and hold the performance and retention notes next to each other,
      after it. */
  lemma ConsideracoesFaturamento(t: Tabela)
    requires Contains(Lower(t.nomeLogico), "faturamento")
    ensures var r := ConsideracoesTecnicas(t);
            exists j :: 0 < j && j + 1 < |r| && r[0] == TextoNota(Seguranca)
                      && r[j] == TextoNota(Performance) && r[j + 1] == TextoNota(Retencao)
  {
    var n := Lower(t.nomeLogico);
    var d := Lower(t.descricaoBasica);
    var antes := NotasIniciais(n, d);
    var ns := NotasDe(t);
    var j := |antes|;
    assert antes[0] == Seguranca;
    assert ns[0] == Seguranca && ns[j] == Performance && ns[j + 1] == Retencao;
    var r := ConsideracoesTecnicas(t);
    assert r[0] == TextoNota(ns[0]) && r[j] == TextoNota(ns[j]) && r[j + 1] == TextoNota(ns[j + 1]);
  }

  // ---------------------------------------------------------------------
  // The Markdown report

  /** What the detail loop of `gerar_relatorio_completo` works out for one
      table before it writes the table's section. */
  datatype Ficha = Ficha(
    nomeLogico: string,
    nomeAmigavel: string,
    descricaoBasica: string,
    descritivo: string,
    finalidades: seq<string>,
    consideracoes: seq<string>,
    contexto: Contexto)

  function FichaDe(t: Tabela): Ficha {
    Ficha(t.nomeLogico, NomeAmigavel(t.nomeLogico), t.descricaoBasica,
          DescritivoExpandido(t), FinalidadeUso(t.nomeLogico),
          ConsideracoesTecnicas(t), ContextoInferido(t.nomeLogico, t.descricaoBasica))
  }

  function Fichas(ts: seq<Tabela>): seq<Ficha> {
    seq(|ts|, i requires 0 <= i < |ts| => FichaDe(ts[i]))
  }

  const Separador := "\n---\n"

  /** The fixed pieces of text in the opening and the closing of the report. */
  datatype Fixa = GeradoEm | Regua | Sumario | ResumoAntes | ResumoDepois | Abrangencia
                | NotasFinais | Rodape1 | Rodape2 | Rodape3

  function TextoFixo(f: Fixa): string {
    match f
    case GeradoEm => "*Documentação gerada automaticamente em "
    case Regua => "---\n"
    case Sumario => "\n## Sumário Executivo\n"
    case ResumoAntes => "Este documento apresenta a documentação detalhada de **"
    case ResumoDepois => " tabelas** do banco de dados, "
    case Abrangencia => "incluindo descritivos expandidos, finalidades de uso e considerações técnicas importantes.\n"
    case NotasFinais => "\n## Notas Finais\n"
    case Rodape1 => "Esta documentação foi gerada automaticamente com base nas informações fornecidas. "
    case Rodape2 => "Recomenda-se revisar e complementar com detalhes específicos sobre colunas, índices, "
    case Rodape3 => "relacionamentos e regras de negócio particulares de cada tabela.\n"
  }

  /** `TextoFixo` as a value. A piece looked up through it stays a single
      term in proofs about the layout of the report: they never need its
      characters. */
  const Fixo: Fixa -> string := TextoFixo

  /** The opening lines: title, timestamp, executive summary with the
      number of tables. */
  function Abertura(titulo: string, data: string, n: nat): (r: seq<string>)
    ensures |r| == 7
  {
    [ "# " + titulo + "\n",
      Fixo(GeradoEm) + data + "*\n",
      Fixo(Regua),
      Fixo(Sumario),
      Fixo(ResumoAntes) + NatToString(n) + Fixo(ResumoDepois),
      Fixo(Abrangencia),
      Separador ]
  }

  /** The index entry of table number `i`: number, link to the lower-cased
      logical name, friendly name. */
  function LinhaIndice(i: nat, t: Tabela): string {
    NatToString(i) + ". [" + t.nomeLogico + "](#" + Lower(t.nomeLogico) + ") - "
    + NomeAmigavel(t.nomeLogico) + "\n"
  }

  function Indice(ts: seq<Tabela>): seq<string> {
    Enumerados(ts, LinhaIndice)
  }

  /** One bullet line per item, in order. */
  function Marcadores(xs: seq<string>): (r: seq<string>)
    ensures |r| == |xs|
  {
    if xs == [] then [] else Marcadores(xs[..|xs| - 1]) + ["- " + xs[|xs| - 1] + "\n"]
  }

  /** The technical notes under their heading, or nothing when there are none. */
  function BlocoConsideracoes(notas: seq<string>): seq<string> {
    if notas == [] then [] else ["\n#### ⚙️ Considerações Técnicas\n"] + Marcadores(notas)
  }

  function LinhasContexto(c: Contexto): seq<string> {
    [ "\n#### 🔗 Contexto no Sistema\n",
      "- **Domínio:** " + Title(c.dominio) + "\n",
      "- **Tipo de Entidade:** " + Title(c.tipoEntidade) + "\n",
      "- **Importância:** " + Title(c.importancia) + "\n" ]
  }

  /** Heading, basic information and expanded description of table `i`. */
  function TopoSecao(i: nat, f: Ficha): (r: seq<string>)
    ensures |r| == 8
  {
    [ "\n## " + NatToString(i) + ". " + f.nomeLogico + "\n",
      "### " + f.nomeAmigavel + "\n",
      "\n#### 📋 Informações Básicas\n",
      "**Nome Lógico:** `" + f.nomeLogico + "`\n\n",
      "**Descrição Original:** " + f.descricaoBasica + "\n",
      "\n#### 📖 Descritivo Detalhado\n",
      f.descritivo + "\n",
      "\n#### 🎯 Finalidade e Uso\n" ]
  }

  /** The detailed section of table number `i`. */
  function SecaoTabela(i: nat, f: Ficha): seq<string> {
    TopoSecao(i, f) + Marcadores(f.finalidades) + BlocoConsideracoes(f.consideracoes)
    + LinhasContexto(f.contexto)
  }

  /** The sections one after another, separated by the separator line. */
  function Detalhes(fs: seq<Ficha>): seq<string> {
    Separados(fs, SecaoTabela, Separador)
  }

  function Rodape(): seq<string> {
    [Separador, Fixo(NotasFinais), Fixo(Rodape1), Fixo(Rodape2), Fixo(Rodape3)]
  }

  /** The parts of the report in order: the opening, the index under its
      heading, the separator, the detailed sections and the closing notes. */
  function Moldura(abertura: seq<string>, indice: seq<string>, detalhes: seq<string>, rodape: seq<string>): seq<string> {
    abertura + (["\n## Índice de Tabelas\n"] + (indice + ([Separador] + (detalhes + rodape))))
  }

  /** The lines of `gerar_relatorio_completo`, before `''.join`. */
  function LinhasRelatorioCompleto(titulo: string, data: string, ts: seq<Tabela>): seq<string> {
    Moldura(Abertura(titulo, data, |ts|), Indice(ts), Detalhes(Fichas(ts)), Rodape())
  }

  /** Under an opening of seven lines, line 8 + k is the index entry of
      table k + 1. */
  lemma MolduraIndice(abertura: seq<string>, ts: seq<Tabela>, detalhes: seq<string>, rodape: seq<string>, k: nat)
    requires |abertura| == 7 && k < |ts|
    ensures var m := Moldura(abertura, Indice(ts), detalhes, rodape);
            8 + k < |m| && m[8 + k] == LinhaIndice(k + 1, ts[k])
  {
    var indice := Indice(ts);
    EnumeradosLinha(ts, LinhaIndice, k);
    var resto := indice + ([Separador] + (detalhes + rodape));
    assert resto[k] == indice[k];
    assert (["\n## Índice de Tabelas\n"] + resto)[1 + k] == resto[k];
  }

  /** The index lists the tables in order, numbered from 1: line 8 + k of
      the report is the entry of table k + 1. */
  lemma IndiceNumerado(titulo: string, data: string, ts: seq<Tabela>, k: nat)
    requires k < |ts|
    ensures var linhas := LinhasRelatorioCompleto(titulo, data, ts);
            8 + k < |linhas| && linhas[8 + k] == LinhaIndice(k + 1, ts[k])
  {
    MolduraIndice(Abertura(titulo, data, |ts|), ts, Detalhes(Fichas(ts)), Rodape(), k);
  }

  /** In the detailed part, section k + 1 comes right after the sections
      before it; the separator follows it exactly when it is not the last
      one, and the last one closes the detailed part. */
  lemma SeparadorEntreSecoes(fs: seq<Ficha>, k: nat)
    requires k < |fs|
    ensures var d := Detalhes(fs);
            var j := |Numerados(fs[..k], ComSeparador(SecaoTabela, Separador, |fs|))|;
            var s := SecaoTabela(k + 1, fs[k]);
            j + |s| <= |d| && d[j..j + |s|] == s
            && (k + 1 < |fs| ==> j + |s| < |d| && d[j + |s|] == Separador)
            && (k + 1 == |fs| ==> j + |s| == |d|)
  {
    SeparadosBloco(fs, SecaoTabela, Separador, k);
  }

  // ---------------------------------------------------------------------
  // The steps of the report, as the loops of `gerar_relatorio_completo`

  /** The bullet loop: one "- item" line per item. */
  method MarcadoresDe(xs: seq<string>) returns (linhas: seq<string>)
    ensures linhas == Marcadores(xs)
  {
    linhas := [];
    var j := 0;
    while j < |xs|
      invariant 0 <= j <= |xs|
      invariant linhas == Marcadores(xs[..j])
    {
      assert xs[..j + 1][..j] == xs[..j];
      linhas := linhas + ["- " + xs[j] + "\n"];
      j := j + 1;
    }
    assert xs[..j] == xs;
  }

  /** The index loop. */
  method IndiceDasTabelas(ts: seq<Tabela>) returns (linhas: seq<string>)
    ensures linhas == Indice(ts)
  {
    linhas := [];
    var i := 0;
    while i < |ts|
      invariant 0 <= i <= |ts|
      invariant linhas == Enumerados(ts[..i], LinhaIndice)
    {
      EnumeradosPasso(ts, LinhaIndice, i);
      linhas := linhas + [LinhaIndice(i + 1, ts[i])];
      i := i + 1;
    }
    assert ts[..i] == ts;
  }

  /** The values the detail loop works out for one table. */
  method FichaDaTabela(t: Tabela) returns (f: Ficha)
    ensures f == FichaDe(t)
  {
    var nomeAmigavel := NomeAmigavel(t.nomeLogico);
    var descritivo := DescritivoExpandido(t);
    var finalidades := FinalidadeUso(t.nomeLogico);
    var consideracoes := ConsideracoesTecnicas(t);
    var contexto := InferirContexto(t.nomeLogico, t.descricaoBasica);
    f := Ficha(t.nomeLogico, nomeAmigavel, t.descricaoBasica, descritivo, finalidades, consideracoes, contexto);
  }

  /** The section the detail loop writes for table number `i`. */
  method SecaoDaFicha(i: nat, f: Ficha) returns (linhas: seq<string>)
    ensures linhas == SecaoTabela(i, f)
  {
    linhas := TopoSecao(i, f);
    var finalidades := MarcadoresDe(f.finalidades);
    linhas := linhas + finalidades;
    var bloco := [];
    if f.consideracoes != [] {
      var notas := MarcadoresDe(f.consideracoes);
      bloco := ["\n#### ⚙️ Considerações Técnicas\n"] + notas;
    }
    linhas := linhas + bloco;
    linhas := linhas + LinhasContexto(f.contexto);
  }

  /** One pass of the detail loop: the section, then the separator unless
      it is the last one. */
  method SecaoComSeparador(n: nat, i: nat, f: Ficha) returns (bloco: seq<string>)
    ensures bloco == if i < n then SecaoTabela(i, f) + [Separador] else SecaoTabela(i, f)
  {
    bloco := SecaoDaFicha(i, f);
    if i < n {
      bloco := bloco + [Separador];
    }
  }

  /** The detail loop: every section, with the separator after all but the last. */
  method DetalhesDasTabelas(ts: seq<Tabela>) returns (linhas: seq<string>)
    ensures linhas == Detalhes(Fichas(ts))
  {
    ghost var fs := Fichas(ts);
    linhas := [];
    var i := 0;
    while i < |ts|
      invariant 0 <= i <= |ts|
      invariant linhas == Numerados(fs[..i], ComSeparador(SecaoTabela, Separador, |fs|))
    {
      var f := FichaDaTabela(ts[i]);
      assert f == fs[i];
      NumeradosPasso(fs, ComSeparador(SecaoTabela, Separador, |fs|), i);
      var bloco := SecaoComSeparador(|ts|, i + 1, f);
      linhas := linhas + bloco;
      i := i + 1;
    }
    assert fs[..i] == fs;
  }

  // ---------------------------------------------------------------------
  // The generator object

  class GeradorDescritivosTabelas {
    var tabelas: seq<Tabela>

    constructor ()
      ensures tabelas == []
    {
      tabelas := [];
    }

    /** `adicionar_tabela`: appends one table, leaving the earlier ones as they were. */
    method AdicionarTabela(nomeLogico: string, descricaoBasica: string)
      modifies this
      ensures tabelas == old(tabelas) + [Tabela(nomeLogico, descricaoBasica)]
    {
      tabelas := tabelas + [Tabela(nomeLogico, descricaoBasica)];
    }

    /** `gerar_relatorio_completo`, with the timestamp passed in as `data`. */
    method GerarRelatorioCompleto(titulo: string, data: string) returns (relatorio: string)
      ensures relatorio == Concat(LinhasRelatorioCompleto(titulo, data, tabelas))
    {
      var ts := tabelas;
      var indice := IndiceDasTabelas(ts);
      var detalhes := DetalhesDasTabelas(ts);
      var linhas := Moldura(Abertura(titulo, data, |ts|), indice, detalhes, Rodape());
      relatorio := Concat(linhas);
    }
  }
}
