/**
 * The account and bank domain: `Cuenta` (an account with an owner, an exact
 * decimal balance and an optional bank) and `Banco` (a named, ordered list of
 * accounts that can move money between any two accounts).
 *
 * Java's BigDecimal is modelled by `real`: every value the domain handles is
 * exact, so no debit or credit ever rounds.
 */
module Models {
  import opened Wrappers
  import opened Exceptions

  // ---------------------------------------------------------------------------
  // Balance arithmetic, on values. The methods of Cuenta and Banco are proved
  // against these functions.
  // ---------------------------------------------------------------------------

  /** The balance a debit of `monto` leaves: the new balance is computed first
      and the debit is refused when it would fall below zero. A debit of the
      whole balance is accepted and leaves zero. */
  function SaldoTrasDebito(saldo: real, monto: real): (r: Result<real, DineroInsuficienteException>)
    ensures r.Failure? <==> monto > saldo
    ensures r.Failure? ==> r.error.message == "Dinero Insuficiente"
    ensures r.Success? ==> r.value >= 0.0 && r.value + monto == saldo
  {
    var nuevoSaldo := saldo - monto;
    if nuevoSaldo < 0.0 then Failure(DineroInsuficiente()) else Success(nuevoSaldo)
  }

  /** The balance a credit of `monto` leaves; a credit never fails. Debiting the
      same amount afterwards gives the old balance back whenever that balance
      was not negative. */
  function SaldoTrasCredito(saldo: real, monto: real): (r: real)
    ensures saldo >= 0.0 ==> SaldoTrasDebito(r, monto) == Success(saldo)
    ensures saldo < 0.0 ==> SaldoTrasDebito(r, monto).Failure?
  {
    saldo + monto
  }

  /** The two balances after moving `monto` from `origen` to `destino`, two
      distinct accounts: a debit of the source, then, only if it succeeded, a
      credit of the destination. */
  function SaldosTrasTransferencia(origen: real, destino: real, monto: real): (r: Result<(real, real), DineroInsuficienteException>)
    ensures r.Failure? <==> monto > origen
    ensures r.Failure? ==> r.error == DineroInsuficiente()
    ensures r.Success? ==> r.value.0 + r.value.1 == origen + destino
    ensures r.Success? ==> origen - r.value.0 == monto && r.value.0 >= 0.0
  {
    match SaldoTrasDebito(origen, monto)
    case Failure(e) => Failure(e)
    case Success(nuevoOrigen) => Success((nuevoOrigen, SaldoTrasCredito(destino, monto)))
  }

  /** A successful debit is undone by a credit of the same amount. */
  lemma CreditoDeshaceDebito(saldo: real, monto: real)
    requires SaldoTrasDebito(saldo, monto).Success?
    ensures SaldoTrasCredito(SaldoTrasDebito(saldo, monto).value, monto) == saldo
  {
  }

  // ---------------------------------------------------------------------------
  // Cuenta
  // ---------------------------------------------------------------------------

  /** An account. Its balance is not constrained at construction or by
      SetSaldo; only a debit refuses to take it below zero. */
  class Cuenta {
    var persona: string
    var saldo: real
    /** The bank that last added this account, if any: an alias, not a copy. */
    var banco: Banco?

    constructor (persona: string, saldo: real)
      ensures this.persona == persona && this.saldo == saldo && banco == null
    {
      this.persona := persona;
      this.saldo := saldo;
      banco := null;
    }

    method SetPersona(persona: string)
      modifies this`persona
      ensures this.persona == persona
      ensures saldo == old(saldo) && banco == old(banco)
    {
      this.persona := persona;
    }

    method SetSaldo(saldo: real)
      modifies this`saldo
      ensures this.saldo == saldo
      ensures persona == old(persona) && banco == old(banco)
    {
      this.saldo := saldo;
    }

    method SetBanco(banco: Banco?)
      modifies this`banco
      ensures this.banco == banco
      ensures persona == old(persona) && saldo == old(saldo)
    {
      this.banco := banco;
    }

    /** Subtracts `monto`, or throws DineroInsuficienteException and leaves the
        balance as it was when the balance does not cover it. */
    method Debito(monto: real) returns (r: Outcome<DineroInsuficienteException>)
      modifies this`saldo
      ensures r.Fail? <==> monto > old(saldo)
      ensures match SaldoTrasDebito(old(saldo), monto)
        case Success(s) => r == Pass && saldo == s
        case Failure(e) => r == Fail(e) && saldo == old(saldo)
    {
      var nuevoSaldo := saldo - monto;
      if nuevoSaldo < 0.0 {
        return Fail(DineroInsuficiente());
      }
      saldo := nuevoSaldo;
      r := Pass;
    }

    /** Adds `monto`; never fails. */
    method Credito(monto: real)
      modifies this`saldo
      ensures saldo == SaldoTrasCredito(old(saldo), monto)
    {
      saldo := saldo + monto;
    }

    /** Value equality: same owner and same balance, whatever the identity of
        the two objects and whatever their banks. */
    function Equals(otra: Cuenta): (iguales: bool)
      reads this, otra
      ensures this == otra ==> iguales
    {
      persona == otra.persona && saldo == otra.saldo
    }
  }

  /** Equals is an equivalence relation, so distinct accounts with the same
      owner and balance cannot be told apart by it. */
  lemma EqualsEsEquivalencia(a: Cuenta, b: Cuenta, c: Cuenta)
    ensures a.Equals(a)
    ensures a.Equals(b) <==> b.Equals(a)
    ensures a.Equals(b) && b.Equals(c) ==> a.Equals(c)
  {
  }

  // ---------------------------------------------------------------------------
  // Banco
  // ---------------------------------------------------------------------------

  /** A bank: a name and the accounts added to it, in the order they were added.
      Nothing keeps an account out of two banks' lists, nor the same account
      out of one list twice. */
  class Banco {
    var nombre: string
    var cuentas: seq<Cuenta>

    constructor ()
      ensures nombre == "" && cuentas == []
    {
      nombre := "";
      cuentas := [];
    }

    method SetNombre(nombre: string)
      modifies this`nombre
      ensures this.nombre == nombre && cuentas == old(cuentas)
    {
      this.nombre := nombre;
    }

    /** Appends `cuenta` and points its back-reference at this very bank, so
        that a later change of name is seen through the account. */
    method AddCuenta(cuenta: Cuenta)
      modifies this`cuentas, cuenta`banco
      ensures cuentas == old(cuentas) + [cuenta]
      ensures cuenta.banco == this
      ensures nombre == old(nombre)
    {
      cuentas := cuentas + [cuenta];
      cuenta.SetBanco(this);
    }

    /** Debits `origen`, then credits `destino` only if the debit succeeded.
        Works on any two accounts, held by this bank or not; when both are the
        same account its balance ends where it started. */
    method Transferir(origen: Cuenta, destino: Cuenta, monto: real) returns (r: Outcome<DineroInsuficienteException>)
      modifies origen`saldo, destino`saldo
      ensures r.Fail? <==> monto > old(origen.saldo)
      ensures r.Fail? ==> r.error == DineroInsuficiente()
      ensures r.Fail? ==> origen.saldo == old(origen.saldo) && destino.saldo == old(destino.saldo)
      ensures origen != destino ==>
        SaldosTrasTransferencia(old(origen.saldo), old(destino.saldo), monto)
          == if r.Pass? then Success((origen.saldo, destino.saldo)) else Failure(r.error)
      ensures origen != destino ==> origen.saldo + destino.saldo == old(origen.saldo) + old(destino.saldo)
      ensures origen == destino ==> origen.saldo == old(origen.saldo)
    {
      r := origen.Debito(monto);
      if r.Pass? {
        destino.Credito(monto);
      }
    }
  }
}
