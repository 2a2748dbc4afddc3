/** `processar`: coerces the columns `val1` and `val2` of a table to numbers,
    divides them row by row into `val3`, and treats the non-finite results
    according to the policy "nan", "inf" or "raise".

    A floating-point cell is modelled as an extended real: missing (pandas
    does not tell NaN from missing), a finite real, or a signed infinity.
    Rounding and signed zeros are not modelled. */
module Processamento {

  datatype Valor = Ausente | Fin(x: real) | MaisInf | MenosInf

  /** A cell of an input column: a number (possibly missing) or a text. */
  datatype Celula = Numero(v: Valor) | Textual(s: string)

  datatype Erro =
    | PoliticaInvalida   // ValueError: the policy is not one of the three
    | DivisaoPorZero     // ZeroDivisionError: "raise" and a zero in val2

  datatype Resultado<T> = Ok(valor: T) | Falha(erro: Erro)

  /** The table `processar` returns: the coerced inputs and the quotient. */
  datatype Quadro = Quadro(val1: seq<Valor>, val2: seq<Valor>, val3: seq<Valor>)

  predicate Finito(v: Valor) {
    v.Fin?
  }

  /** The three policies accepted for a zero divisor. */
  predicate PoliticaValida(politica: string) {
    politica in {"nan", "inf", "raise"}
  }

  // ---------------------------------------------------------------------
  // Coercion

  /** Numeric coercion of one cell: a number stays as it is
      and a text goes through the parser `ler`, which answers `Ausente` for
      a text that is not a number. */
  function Coagir(c: Celula, ler: string -> Valor): (r: Valor)
    ensures c.Numero? ==> r == c.v
  {
    match c
    case Numero(v) => v
    case Textual(s) => ler(s)
  }

  function Coluna(cs: seq<Celula>, ler: string -> Valor): (r: seq<Valor>)
    ensures |r| == |cs|
    ensures forall i :: 0 <= i < |cs| ==> r[i] == Coagir(cs[i], ler)
  {
    seq(|cs|, i requires 0 <= i < |cs| => Coagir(cs[i], ler))
  }

  /** A column of numbers written back as cells. */
  function Numeros(vs: seq<Valor>): (r: seq<Celula>)
    ensures |r| == |vs|
    ensures forall i :: 0 <= i < |vs| ==> r[i] == Numero(vs[i])
  {
    seq(|vs|, i requires 0 <= i < |vs| => Numero(vs[i]))
  }

  /** Coercion leaves a column of numbers unchanged. */
  lemma ColunaDeNumeros(vs: seq<Valor>, ler: string -> Valor)
    ensures Coluna(Numeros(vs), ler) == vs
  {
  }

  // ---------------------------------------------------------------------
  // Division

  /** The floating-point quotient `a / b`. */
  function Dividir(a: Valor, b: Valor): (r: Valor)
    ensures a == Ausente || b == Ausente ==> r == Ausente
    ensures a.Fin? && b.Fin? && b.x != 0.0 ==> r.Fin? && r.x * b.x == a.x
    ensures a.Fin? && b == Fin(0.0) ==>
              (a.x > 0.0 ==> r == MaisInf) && (a.x < 0.0 ==> r == MenosInf) && (a.x == 0.0 ==> r == Ausente)
    ensures r == Ausente ==> a == Ausente || b == Ausente || (a == Fin(0.0) && b == Fin(0.0)) || (!a.Fin? && !b.Fin?)
  {
    match (a, b)
    case (Ausente, _) => Ausente
    case (_, Ausente) => Ausente
    case (Fin(x), Fin(y)) =>
      if y != 0.0 then Fin(x / y)
      else if x > 0.0 then MaisInf
      else if x < 0.0 then MenosInf
      else Ausente
    case (Fin(_), _) => Fin(0.0)
    case (_, Fin(y)) =>
      if y < 0.0 then Oposto(a) else a
    case (_, _) => Ausente
  }

  /** The infinity of the other sign. */
  function Oposto(v: Valor): (r: Valor)
    requires v == MaisInf || v == MenosInf
    ensures (r == MaisInf || r == MenosInf) && r != v
  {
    if v == MaisInf then MenosInf else MaisInf
  }

  /** `val1 / val2`, row by row. */
  function Quocientes(v1: seq<Valor>, v2: seq<Valor>): (r: seq<Valor>)
    requires |v1| == |v2|
    ensures |r| == |v1|
    ensures forall i :: 0 <= i < |v1| ==> r[i] == Dividir(v1[i], v2[i])
  {
    seq(|v1|, i requires 0 <= i < |v1| => Dividir(v1[i], v2[i]))
  }

  /** The "nan" policy on a column of quotients: every non-finite
      cell becomes missing, the finite ones stay. */
  function SoFinitos(q: seq<Valor>): (r: seq<Valor>)
    ensures |r| == |q|
    ensures forall i :: 0 <= i < |q| ==> r[i] == if Finito(q[i]) then q[i] else Ausente
  {
    seq(|q|, i requires 0 <= i < |q| => if Finito(q[i]) then q[i] else Ausente)
  }

  /** Some divisor equals zero (a missing divisor does not). */
  predicate TemZero(v2: seq<Valor>) {
    exists i :: 0 <= i < |v2| && v2[i] == Fin(0.0)
  }

  // ---------------------------------------------------------------------
  // The transform

  /** What `processar` returns or raises for the columns `c1` and `c2`
      (of one table, hence of equal length). */
  function Processar(c1: seq<Celula>, c2: seq<Celula>, politica: string, ler: string -> Valor): (r: Resultado<Quadro>)
    requires |c1| == |c2|
    ensures r == Falha(PoliticaInvalida) <==> !PoliticaValida(politica)
    ensures r == Falha(DivisaoPorZero) <==> politica == "raise" && TemZero(Coluna(c2, ler))
    ensures r.Ok? ==> r.valor.val1 == Coluna(c1, ler) && r.valor.val2 == Coluna(c2, ler) && |r.valor.val3| == |c1|
  {
    if !PoliticaValida(politica) then Falha(PoliticaInvalida)
    else
      var v1 := Coluna(c1, ler);
      var v2 := Coluna(c2, ler);
      if politica == "raise" && TemZero(v2) then Falha(DivisaoPorZero)
      else
        var q := Quocientes(v1, v2);
        Ok(Quadro(v1, v2, if politica == "nan" then SoFinitos(q) else q))
  }

  /** The numeric coercion of one column (`pd.to_numeric`, unreadable text
      becoming missing), into a fresh array. */
  method ColunaNumerica(cs: array<Celula>, ler: string -> Valor) returns (d: array<Valor>)
    ensures fresh(d)
    ensures d[..] == Coluna(cs[..], ler)
  {
    d := new Valor[cs.Length];
    for i := 0 to cs.Length
      invariant forall j :: 0 <= j < i ==> d[j] == Coagir(cs[j], ler)
    {
      d[i] := Coagir(cs[i], ler);
    }
  }

  /** Whether some coerced divisor is zero. */
  method ProcurarZero(d2: array<Valor>) returns (temZero: bool)
    ensures temZero <==> TemZero(d2[..])
  {
    temZero := false;
    for i := 0 to d2.Length
      invariant temZero <==> exists j :: 0 <= j < i && d2[j] == Fin(0.0)
    {
      if d2[i] == Fin(0.0) {
        temZero := true;
      }
    }
    if temZero {
      var j :| 0 <= j < d2.Length && d2[j] == Fin(0.0);
      assert d2[..][j] == Fin(0.0);
    }
  }

  /** The row-by-row division of the two coerced columns, into a fresh array. */
  method DividirColunas(d1: array<Valor>, d2: array<Valor>) returns (d3: array<Valor>)
    requires d1.Length == d2.Length
    ensures fresh(d3)
    ensures d3[..] == Quocientes(d1[..], d2[..])
  {
    d3 := new Valor[d1.Length];
    for i := 0 to d1.Length
      invariant forall j :: 0 <= j < i ==> d3[j] == Dividir(d1[j], d2[j])
    {
      d3[i] := Dividir(d1[i], d2[i]);
    }
  }

  /** The "nan" policy: every non-finite quotient is set to missing, in place. */
  method AnularNaoFinitos(d3: array<Valor>)
    modifies d3
    ensures d3[..] == SoFinitos(old(d3[..]))
  {
    ghost var q := d3[..];
    for i := 0 to d3.Length
      invariant forall j :: 0 <= j < d3.Length ==> d3[j] == if j < i && !Finito(q[j]) then Ausente else q[j]
    {
      if !Finito(d3[i]) {
        d3[i] := Ausente;
      }
    }
  }

  /** `processar` step by step, on fresh copies of the columns: the policy
      check, the coercion of both columns, the zero scan under "raise", the
      division, and under "nan" the in-place blanking of the non-finite
      quotients. The caller's columns are left untouched. */
  method ProcessarTabela(val1: array<Celula>, val2: array<Celula>, politica: string, ler: string -> Valor)
    returns (r: Resultado<Quadro>)
    requires val1.Length == val2.Length
    ensures r == Processar(val1[..], val2[..], politica, ler)
  {
    if !PoliticaValida(politica) {
      return Falha(PoliticaInvalida);
    }
    var d1 := ColunaNumerica(val1, ler);
    var d2 := ColunaNumerica(val2, ler);
    if politica == "raise" {
      var temZero := ProcurarZero(d2);
      if temZero {
        return Falha(DivisaoPorZero);
      }
    }
    var d3 := DividirColunas(d1, d2);
    if politica == "nan" {
      AnularNaoFinitos(d3);
    }
    r := Ok(Quadro(d1[..], d2[..], d3[..]));
  }

  // ---------------------------------------------------------------------
  // Properties

  /** The policy is checked first: an unknown policy fails with the policy
      error whatever the data, and only an unknown policy does. */
  lemma PoliticaVerificadaPrimeiro(c1: seq<Celula>, c2: seq<Celula>, politica: string, ler: string -> Valor)
    requires |c1| == |c2|
    ensures Processar(c1, c2, politica, ler) == Falha(PoliticaInvalida) <==> !PoliticaValida(politica)
  {
  }

  /** Under "raise" the call fails with the division error exactly when a
      coerced divisor is zero; a missing divisor does not count. Under the
      other policies it never does. */
  lemma ZeroSobRaise(c1: seq<Celula>, c2: seq<Celula>, politica: string, ler: string -> Valor)
    requires |c1| == |c2|
    ensures Processar(c1, c2, politica, ler) == Falha(DivisaoPorZero)
            <==> politica == "raise" && exists i :: 0 <= i < |c2| && Coagir(c2[i], ler) == Fin(0.0)
  {
    var v2 := Coluna(c2, ler);
    if politica == "raise" && exists i :: 0 <= i < |c2| && Coagir(c2[i], ler) == Fin(0.0) {
      var i :| 0 <= i < |c2| && Coagir(c2[i], ler) == Fin(0.0);
      assert v2[i] == Fin(0.0);
    }
  }

  /** A successful call keeps the rows and their order: every output column
      has the input's length, and `val1`, `val2` are the coerced inputs. */
  lemma LinhasPreservadas(c1: seq<Celula>, c2: seq<Celula>, politica: string, ler: string -> Valor)
    requires |c1| == |c2|
    ensures var r := Processar(c1, c2, politica, ler);
            r.Ok? ==> |r.valor.val1| == |r.valor.val2| == |r.valor.val3| == |c1|
                      && (forall i :: 0 <= i < |c1| ==> r.valor.val1[i] == Coagir(c1[i], ler))
                      && (forall i :: 0 <= i < |c2| ==> r.valor.val2[i] == Coagir(c2[i], ler))
  {
  }

  /** Two present operands with a non-zero divisor give their quotient,
      under every policy. */
  lemma QuocienteDefinido(c1: seq<Celula>, c2: seq<Celula>, politica: string, ler: string -> Valor, i: nat)
    requires |c1| == |c2| && i < |c1|
    requires Coagir(c1[i], ler).Fin? && Coagir(c2[i], ler).Fin? && Coagir(c2[i], ler).x != 0.0
    ensures var r := Processar(c1, c2, politica, ler);
            r.Ok? ==> r.valor.val3[i] == Fin(Coagir(c1[i], ler).x / Coagir(c2[i], ler).x)
  {
  }

  /** A missing operand gives a missing quotient, under every policy. */
  lemma AusentePropaga(c1: seq<Celula>, c2: seq<Celula>, politica: string, ler: string -> Valor, i: nat)
    requires |c1| == |c2| && i < |c1|
    requires Coagir(c1[i], ler) == Ausente || Coagir(c2[i], ler) == Ausente
    ensures var r := Processar(c1, c2, politica, ler);
            r.Ok? ==> r.valor.val3[i] == Ausente
  {
  }

  /** Under "nan" every quotient is finite or missing, and a finite raw
      quotient is kept. */
  lemma NanSoFinitos(c1: seq<Celula>, c2: seq<Celula>, ler: string -> Valor)
    requires |c1| == |c2|
    ensures var r := Processar(c1, c2, "nan", ler);
            r.Ok? && forall i :: 0 <= i < |c1| ==>
              (Finito(r.valor.val3[i]) || r.valor.val3[i] == Ausente)
              && (Finito(Dividir(r.valor.val1[i], r.valor.val2[i])) ==> r.valor.val3[i] == Dividir(r.valor.val1[i], r.valor.val2[i]))
  {
  }

  /** Under "inf" the quotient is left as IEEE division gives it: a non-zero
      number over zero is the infinity of its sign, zero over zero is NaN,
      that is, missing. */
  lemma InfQuocienteBruto(c1: seq<Celula>, c2: seq<Celula>, ler: string -> Valor, i: nat)
    requires |c1| == |c2| && i < |c1|
    ensures var r := Processar(c1, c2, "inf", ler);
            var a, b := Coagir(c1[i], ler), Coagir(c2[i], ler);
            r.Ok? && r.valor.val3[i] == Dividir(a, b)
            && (a.Fin? && a.x > 0.0 && b == Fin(0.0) ==> r.valor.val3[i] == MaisInf)
            && (a.Fin? && a.x < 0.0 && b == Fin(0.0) ==> r.valor.val3[i] == MenosInf)
            && (a == Fin(0.0) && b == Fin(0.0) ==> r.valor.val3[i] == Ausente)
  {
  }

  /** All coerced values are finite or missing. */
  predicate FinitosOuAusentes(vs: seq<Valor>) {
    forall i :: 0 <= i < |vs| ==> vs[i].Fin? || vs[i] == Ausente
  }

  /** Under "nan", with finite-or-missing inputs, a quotient is missing
      exactly when an operand is missing or the divisor is zero. */
  lemma NanAusenteSse(c1: seq<Celula>, c2: seq<Celula>, ler: string -> Valor, i: nat)
    requires |c1| == |c2| && i < |c1|
    requires FinitosOuAusentes(Coluna(c1, ler)) && FinitosOuAusentes(Coluna(c2, ler))
    ensures var r := Processar(c1, c2, "nan", ler);
            var a, b := Coagir(c1[i], ler), Coagir(c2[i], ler);
            r.Ok? && (r.valor.val3[i] == Ausente <==> a == Ausente || b == Ausente || b == Fin(0.0))
  {
    var a, b := Coluna(c1, ler)[i], Coluna(c2, ler)[i];
    assert a.Fin? || a == Ausente;
    assert b.Fin? || b == Ausente;
  }

  /** Without the finiteness of the inputs the equivalence fails: an
      infinite `val1` over 1 is blanked under "nan" although neither operand
      is missing and the divisor is not zero. */
  lemma NanAusenteComInfinito()
    ensures var r := Processar([Numero(MaisInf)], [Numero(Fin(1.0))], "nan", s => Ausente);
            r.Ok? && r.valor.val3 == [Ausente]
  {
    var q := Quocientes([MaisInf], [Fin(1.0)]);
    assert q[0] == MaisInf;
  }

  /** Running `processar` again on its own output columns `val1` and `val2`
      gives the same result. */
  lemma Idempotente(c1: seq<Celula>, c2: seq<Celula>, politica: string, ler: string -> Valor)
    requires |c1| == |c2|
    ensures var r := Processar(c1, c2, politica, ler);
            r.Ok? ==>
              |r.valor.val1| == |r.valor.val2|
              && Processar(Numeros(r.valor.val1), Numeros(r.valor.val2), politica, ler) == r
  {
    var r := Processar(c1, c2, politica, ler);
    if r.Ok? {
      ColunaDeNumeros(r.valor.val1, ler);
      ColunaDeNumeros(r.valor.val2, ler);
    }
  }

  /** The rows (10, 2), (5, 0), (0, 0), (missing, 3) under each policy. */
  lemma Exemplo(ler: string -> Valor)
    ensures var c1 := [Numero(Fin(10.0)), Numero(Fin(5.0)), Numero(Fin(0.0)), Numero(Ausente)];
            var c2 := [Numero(Fin(2.0)), Numero(Fin(0.0)), Numero(Fin(0.0)), Numero(Fin(3.0))];
            Processar(c1, c2, "nan", ler).Ok?
            && Processar(c1, c2, "nan", ler).valor.val3 == [Fin(5.0), Ausente, Ausente, Ausente]
            && Processar(c1, c2, "inf", ler).Ok?
            && Processar(c1, c2, "inf", ler).valor.val3 == [Fin(5.0), MaisInf, Ausente, Ausente]
            && Processar(c1, c2, "raise", ler) == Falha(DivisaoPorZero)
  {
    var c1 := [Numero(Fin(10.0)), Numero(Fin(5.0)), Numero(Fin(0.0)), Numero(Ausente)];
    var c2 := [Numero(Fin(2.0)), Numero(Fin(0.0)), Numero(Fin(0.0)), Numero(Fin(3.0))];
    var v1, v2 := Coluna(c1, ler), Coluna(c2, ler);
    assert v1 == [Fin(10.0), Fin(5.0), Fin(0.0), Ausente];
    assert v2 == [Fin(2.0), Fin(0.0), Fin(0.0), Fin(3.0)];
    var q := Quocientes(v1, v2);
    assert q == [Fin(5.0), MaisInf, Ausente, Ausente];
    assert SoFinitos(q) == [Fin(5.0), Ausente, Ausente, Ausente];
    assert v2[1] == Fin(0.0);
  }
}
