/** Shared value types of the analysis engine: the transaction record every
    detector reads, and the small wrappers the rest of the model uses. */
module Common {

  datatype Option<T> = None | Some(value: T)

  /** Amounts are non-negative decimals; the model uses exact reals. */
  type Money = x: real | 0.0 <= x

  /** The `i_e` column: inflow, outflow, or any other label found in the data. */
  datatype Direction = Ingreso | Egreso | OtherDirection(name: string)

  /** One row of the `transacciones` table, with the columns the detectors use.
      `stamp` is the result of parsing `fecha + ' ' + hora` (seconds), None when
      the parse fails; `day` is the calendar day of `fecha`; account dates are
      day numbers, None when null. */
  datatype Txn = Txn(
    client: string,            // codunicocli_13_enc
    docType: string,           // destipdocumento
    segment: Option<string>,   // segmento
    activity: Option<string>,  // act_economica
    currency: string,          // moneda
    openDay: Option<int>,      // fecapertura
    closeDay: Option<int>,      // feccierre
    fecha: string,             // fecha, as stored text
    day: int,                  // fecha as a calendar day
    stamp: Option<int>,        // fecha + hora, in seconds
    memo: Option<string>,      // glosa_limpia
    group: Option<string>,     // grupo
    channel: Option<string>,   // canal
    branch: Option<string>,    // agencia
    operator: Option<string>,  // operador
    amount: Money,             // monto
    direction: Direction)      // i_e

  /** `s[:8]` in Python: the first eight characters, or all of a shorter string. */
  function Prefix8(s: string): (p: string)
    ensures |p| == if |s| < 8 then |s| else 8
    ensures p <= s
  {
    if |s| <= 8 then s else s[..8]
  }

  function AbsReal(x: real): (r: real)
    ensures 0.0 <= r && (r == x || r == -x)
  {
    if x < 0.0 then -x else x
  }

  function MaxReal(a: real, b: real): (r: real)
    ensures a <= r && b <= r && (r == a || r == b)
  {
    if a < b then b else a
  }

  /** Sum of the amounts of a sequence of rows. */
  function Total(rows: seq<Txn>): (r: real)
    ensures 0.0 <= r
  {
    if rows == [] then 0.0 else rows[0].amount + Total(rows[1..])
  }
}
