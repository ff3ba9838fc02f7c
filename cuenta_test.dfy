/**
 * The scenarios of the account test class, each as a method that runs the
 * same calls on fresh objects and returns what the test observes. The
 * `ensures` clauses state the test's assertions about the domain and add,
 * among others, the unchanged balance after a refused debit, the distinct
 * identities of the two equal accounts, and the exact balance and owner after
 * the table-driven debit. They are proved from the contracts of Cuenta and
 * Banco and from the definition of `Cuenta.Equals`. The two stream queries the test runs over a
 * bank's account list are methods here too: Banco itself has no such query.
 */
module CuentaTest {
  import opened Wrappers
  import opened Exceptions
  import opened Models

  /** getCuentas().stream().filter(c -> c.getPersona().equals(persona)).findFirst():
      the first account of `banco`, in insertion order, whose owner is `persona`. */
  method PrimeraCuentaDe(banco: Banco, persona: string) returns (encontrada: Option<Cuenta>)
    ensures encontrada.None? <==> forall i :: 0 <= i < |banco.cuentas| ==> banco.cuentas[i].persona != persona
    ensures encontrada.Some? ==>
      exists i :: 0 <= i < |banco.cuentas| && banco.cuentas[i] == encontrada.value && banco.cuentas[i].persona == persona
        && forall j :: 0 <= j < i ==> banco.cuentas[j].persona != persona
  {
    var cuentas := banco.cuentas;
    var i := 0;
    while i < |cuentas|
      invariant 0 <= i <= |cuentas|
      invariant forall j :: 0 <= j < i ==> cuentas[j].persona != persona
    {
      if cuentas[i].persona == persona {
        return Some(cuentas[i]);
      }
      i := i + 1;
    }
    encontrada := None;
  }

  /** getCuentas().stream().anyMatch(c -> c.getPersona().equals(persona)). */
  method HayCuentaDe(banco: Banco, persona: string) returns (hay: bool)
    ensures hay <==> exists i :: 0 <= i < |banco.cuentas| && banco.cuentas[i].persona == persona
  {
    var cuentas := banco.cuentas;
    hay := false;
    var i := 0;
    while i < |cuentas| && !hay
      invariant 0 <= i <= |cuentas|
      invariant hay <==> exists j :: 0 <= j < i && cuentas[j].persona == persona
    {
      hay := cuentas[i].persona == persona;
      i := i + 1;
    }
  }

  /** The account every test starts from. */
  method InitMethod() returns (cuenta: Cuenta)
    ensures cuenta.persona == "Oldahir" && cuenta.saldo == 1200.123456 && cuenta.banco == null
    ensures fresh(cuenta)
  {
    cuenta := new Cuenta("Oldahir", 1200.123456);
  }

  /** The owner given to the constructor is the owner read back. */
  method TestNombreCuenta() returns (nombre: string)
    ensures nombre == "Oldahir"
  {
    var cuenta := InitMethod();
    nombre := cuenta.persona;
  }

  /** The balance given to the constructor is the balance read back, and it is
      strictly positive. */
  method TestSaldoCuenta() returns (saldo: real)
    ensures saldo == 1000.123456
    ensures !(saldo < 0.0) && saldo > 0.0
  {
    var cuenta := new Cuenta("Oldahir", 1000.123456);
    saldo := cuenta.saldo;
  }

  /** Two distinct objects with the same owner and balance are equal. */
  method TestReferenciaCuenta() returns (iguales: bool, mismoObjeto: bool)
    ensures iguales && !mismoObjeto
  {
    var cuenta := new Cuenta("Jhon Doe", 1000.123456);
    var cuenta2 := new Cuenta("Jhon Doe", 1000.123456);
    iguales := cuenta2.Equals(cuenta);
    mismoObjeto := cuenta2 == cuenta;
  }

  /** A debit of 100 from 1000.123456 leaves exactly 900.123456. */
  method TestDebitoCuenta() returns (saldo: real)
    ensures saldo == 900.123456 && saldo.Floor == 900
  {
    var cuenta := new Cuenta("Olda", 1000.123456);
    var r := cuenta.Debito(100.0);
    saldo := cuenta.saldo;
  }

  /** A credit of 100 to 1000.123456 leaves exactly 1100.123456. */
  method TestCreditoCuenta() returns (saldo: real)
    ensures saldo == 1100.123456 && saldo.Floor == 1100
  {
    var cuenta := new Cuenta("Olda", 1000.123456);
    cuenta.Credito(100.0);
    saldo := cuenta.saldo;
  }

  /** Moving 500 from an account of 1500.8989 to one of 2500, neither of them
      held by the bank, leaves 1000.8989 and 3000. */
  method TestTransferirDineroCuenta() returns (saldo1: real, saldo2: real)
    ensures saldo2 == 1000.8989 && saldo1 == 3000.0
  {
    var cuenta1 := new Cuenta("Jhon Doe", 2500.0);
    var cuenta2 := new Cuenta("Andres", 1500.8989);
    var banco := new Banco();
    banco.SetNombre("Banco del Estado");
    var r := banco.Transferir(cuenta2, cuenta1, 500.0);
    saldo1, saldo2 := cuenta1.saldo, cuenta2.saldo;
  }

  /** A debit of 1500 from 1000.123456 throws DineroInsuficienteException with
      the message "Dinero Insuficiente", and the balance is untouched. */
  method TestDineroInsuficienteExceptionCuenta() returns (r: Outcome<DineroInsuficienteException>, saldo: real)
    ensures r.Fail? && r.error.message == "Dinero Insuficiente"
    ensures saldo == 1000.123456
  {
    var cuenta := new Cuenta("Olda", 1000.123456);
    r := cuenta.Debito(1500.0);
    saldo := cuenta.saldo;
  }

  /** Two accounts added to a bank, the bank renamed afterwards, then a
      transfer between them: the balances move, the list holds both accounts in
      order, the name is seen through the account's back-reference, and both
      owners can be found in the list. */
  method TestRelacionBancoCuenta()
    returns (saldo1: real, saldo2: real, numCuentas: nat, nombreBanco: string,
             andres: Option<string>, hayJhonDoe: bool)
    ensures saldo2 == 1000.8989 && saldo1 == 3000.0
    ensures numCuentas == 2
    ensures nombreBanco == "Banco del Estado"
    ensures andres == Some("Andres")
    ensures hayJhonDoe
  {
    var cuenta1 := new Cuenta("Jhon Doe", 2500.0);
    var cuenta2 := new Cuenta("Andres", 1500.8989);

    var banco := new Banco();
    banco.AddCuenta(cuenta1);
    banco.AddCuenta(cuenta2);

    banco.SetNombre("Banco del Estado");
    var r := banco.Transferir(cuenta2, cuenta1, 500.0);

    saldo1, saldo2 := cuenta1.saldo, cuenta2.saldo;
    numCuentas := |banco.cuentas|;
    nombreBanco := cuenta1.banco.nombre;

    var encontrada := PrimeraCuentaDe(banco, "Andres");
    assert banco.cuentas[1] == cuenta2;
    andres := if encontrada.Some? then Some(encontrada.value.persona) else None;
    hayJhonDoe := HayCuentaDe(banco, "Jhon Doe");
    assert banco.cuentas[0] == cuenta1;
  }

  /** The amounts the parameterised debit tests feed in, one test each. */
  function MontoList(): seq<real>
  {
    [100.0, 200.0, 300.0, 500.0, 700.0, 1000.0]
  }

  /** Each listed amount, debited from the fixture's 1200.123456, is accepted
      and leaves a strictly positive balance. */
  method TestDebitoCuentaParametriz(monto: real) returns (r: Outcome<DineroInsuficienteException>, saldo: real)
    requires monto in MontoList()
    ensures r == Pass && saldo > 0.0
  {
    var cuenta := InitMethod();
    r := cuenta.Debito(monto);
    saldo := cuenta.saldo;
  }

  /** The (balance, amount) rows of the table-driven debit test. */
  function SaldoMontoRows(): seq<(real, real)>
  {
    [(110.0, 100.0), (250.0, 200.0), (350.0, 300.0), (699.0, 500.0), (780.0, 700.0), (1800.0, 1000.0)]
  }

  /** For each row: SetSaldo, a debit that is accepted and leaves a strictly
      positive balance, then SetPersona, which replaces the owner and leaves
      that balance alone. */
  method TestDebitoCuentaCsvSource2(saldo: real, monto: real, actual: string)
    returns (r: Outcome<DineroInsuficienteException>, saldoFinal: real, persona: string)
    requires (saldo, monto) in SaldoMontoRows()
    ensures r == Pass && saldoFinal > 0.0 && saldoFinal == saldo - monto
    ensures persona == actual
  {
    var cuenta := InitMethod();
    cuenta.SetSaldo(saldo);
    r := cuenta.Debito(monto);
    cuenta.SetPersona(actual);
    saldoFinal, persona := cuenta.saldo, cuenta.persona;
  }
}
