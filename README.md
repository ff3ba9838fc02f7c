# Accounts and banks (junit5app `models` package), in Dafny

This project models the banking domain that the `CuentaTest` JUnit class
exercises. There are two classes:

- `Cuenta` is an account. It holds an owner (`persona`), an exact decimal
  balance (`saldo`) and an optional back-reference to the `Banco` that added it.
  `debito` subtracts an amount, or throws `DineroInsuficienteException` with the
  message "Dinero Insuficiente" when the balance does not cover it. `credito`
  adds an amount and never fails. The setters replace a field. Equality is by
  owner and balance.
- `Banco` is a bank. It has a mutable name and an ordered list of accounts.
  `addCuenta` appends an account and points that account's back-reference at
  the bank itself. `transferir` debits one account and then credits the other.
  It works on any two accounts, whether the bank holds them or not.

The model is drawn only from the assertions of `CuentaTest`. The domain
classes' own code (`Cuenta` and `Banco` in the `models` package,
`DineroInsuficienteException` in the `exceptions` package) is not modelled.
What those assertions leave open is chosen as noted under "## Left out".

Files:

- `wrappers.dfy` holds `Outcome` (a normal return, or an exception), `Result`
  (a value, or an exception) and `Option` (java.util.Optional).
- `exceptions.dfy` holds `DineroInsuficienteException` and its message.
- `models.dfy` holds the balance arithmetic as functions on values
  (`SaldoTrasDebito`, `SaldoTrasCredito`, `SaldosTrasTransferencia`) and the
  classes `Cuenta` and `Banco`. `Debito`, `Credito` and `Transferir` are
  proved against those functions.
- `cuenta_test.dfy` holds each test scenario as a method. It builds the same
  objects, makes the same calls and returns what the test observes. Its
  `ensures` clauses state the test's assertions about the domain. They add
  four things the test does not assert:
  - the unchanged balance after a refused debit;
  - that the two equal accounts of `TestReferenciaCuenta` are distinct objects;
  - in `TestDebitoCuentaCsvSource2`, that the final balance is exactly the
    balance minus the amount;
  - also in `TestDebitoCuentaCsvSource2`, that the owner afterwards is the one
    passed to `SetPersona`.

  They are proved from the class contracts and from the definition of
  `Cuenta.Equals`. The module also holds `PrimeraCuentaDe` and `HayCuentaDe`. These stand for the test's
  own stream queries over a bank's account list, not for methods of `Banco`.

`BigDecimal` is modelled as Dafny's `real`, so every value is exact. A debit
is refused exactly when the amount exceeds the balance. A debit of the whole
balance is accepted and leaves zero. A refused debit leaves the balance as it
was.

## Model

| member | source | states |
|---|---|---|
| `Models.SaldoTrasDebito` | src/test/java/org/gomez/junit5app/ejemplos/models/CuentaTest.java:134-142 | a debit fails iff the amount exceeds the balance, and then carries "Dinero Insuficiente"; on success the new balance is non-negative and the amount added back gives the old balance exactly |
| `Models.SaldoTrasCredito` | src/test/java/org/gomez/junit5app/ejemplos/models/CuentaTest.java:109-113 | a credit never fails; debiting the same amount afterwards restores a non-negative balance exactly and is refused from a negative one |
| `Models.SaldosTrasTransferencia` | src/test/java/org/gomez/junit5app/ejemplos/models/CuentaTest.java:119-128 | a transfer between two distinct accounts fails iff the amount exceeds the source balance; on success the source loses exactly the amount, stays non-negative, and the sum of the two balances is conserved |
| `Models.CreditoDeshaceDebito` | src/test/java/org/gomez/junit5app/ejemplos/models/CuentaTest.java:98-114 | a successful debit followed by a credit of the same amount gives back the original balance |
| `Models.EqualsEsEquivalencia` | src/test/java/org/gomez/junit5app/ejemplos/models/CuentaTest.java:84-91 | account equality (same owner and same balance, regardless of identity) is reflexive, symmetric and transitive |
| `Models.Cuenta.Equals` | src/test/java/org/gomez/junit5app/ejemplos/models/CuentaTest.java:84-91 | value equality, by a transparent definition: true iff the owners and the balances match, whatever the identity of the two objects and whatever their banks. Its contract states that an object always equals itself |
| `Models.Cuenta.constructor` | src/test/java/org/gomez/junit5app/ejemplos/models/CuentaTest.java:31 | a new account holds the given owner and balance, with no bank |
| `Models.Cuenta.SetPersona` | src/test/java/org/gomez/junit5app/ejemplos/models/CuentaTest.java:338 | replaces the owner and leaves the balance and bank alone |
| `Models.Cuenta.SetSaldo` | src/test/java/org/gomez/junit5app/ejemplos/models/CuentaTest.java:336 | replaces the balance, with no validation, and leaves the owner and bank alone |
| `Models.Cuenta.SetBanco` | src/test/java/org/gomez/junit5app/ejemplos/models/CuentaTest.java:154-155 | replaces the bank back-reference and leaves owner and balance alone |
| `Models.Cuenta.Debito` | src/test/java/org/gomez/junit5app/ejemplos/models/CuentaTest.java:99-103 | throws iff the amount exceeds the old balance, and then keeps the balance; otherwise the balance becomes the debited one |
| `Models.Cuenta.Credito` | src/test/java/org/gomez/junit5app/ejemplos/models/CuentaTest.java:109-113 | the balance becomes the old balance plus the amount |
| `Models.Banco.constructor` | src/test/java/org/gomez/junit5app/ejemplos/models/CuentaTest.java:123 | a new bank has no accounts |
| `Models.Banco.SetNombre` | src/test/java/org/gomez/junit5app/ejemplos/models/CuentaTest.java:124 | replaces the name and leaves the account list alone |
| `Models.Banco.AddCuenta` | src/test/java/org/gomez/junit5app/ejemplos/models/CuentaTest.java:153-163 | appends the account to the list and sets the account's bank to this very object, so later renames are visible through it |
| `Models.Banco.Transferir` | src/test/java/org/gomez/junit5app/ejemplos/models/CuentaTest.java:119-128 | fails iff the amount exceeds the source balance, and then changes nothing; for distinct accounts the new balances are those of `SaldosTrasTransferencia` and their sum is conserved; a transfer from an account to itself leaves it unchanged |
| `CuentaTest.PrimeraCuentaDe` | src/test/java/org/gomez/junit5app/ejemplos/models/CuentaTest.java:164-167 | returns the first account in insertion order whose owner matches, and nothing iff no account's owner matches |
| `CuentaTest.HayCuentaDe` | src/test/java/org/gomez/junit5app/ejemplos/models/CuentaTest.java:168-169 | true iff some account in the list has the given owner |
| `CuentaTest.InitMethod` | src/test/java/org/gomez/junit5app/ejemplos/models/CuentaTest.java:29-36 | the fixture is a fresh account of "Oldahir" with 1200.123456 and no bank |
| `CuentaTest.TestNombreCuenta` | src/test/java/org/gomez/junit5app/ejemplos/models/CuentaTest.java:59-70 | the fixture's owner reads back as "Oldahir" |
| `CuentaTest.TestSaldoCuenta` | src/test/java/org/gomez/junit5app/ejemplos/models/CuentaTest.java:74-80 | the balance reads back as exactly 1000.123456, which is positive and not negative |
| `CuentaTest.TestReferenciaCuenta` | src/test/java/org/gomez/junit5app/ejemplos/models/CuentaTest.java:84-91 | two distinct account objects with the same owner and balance are equal |
| `CuentaTest.TestDebitoCuenta` | src/test/java/org/gomez/junit5app/ejemplos/models/CuentaTest.java:98-104 | 1000.123456 debited by 100 is exactly 900.123456, with integer part 900 |
| `CuentaTest.TestCreditoCuenta` | src/test/java/org/gomez/junit5app/ejemplos/models/CuentaTest.java:108-114 | 1000.123456 credited by 100 is exactly 1100.123456, with integer part 1100 |
| `CuentaTest.TestTransferirDineroCuenta` | src/test/java/org/gomez/junit5app/ejemplos/models/CuentaTest.java:119-128 | moving 500 from 1500.8989 to 2500, between accounts the bank does not hold, leaves 1000.8989 and 3000 |
| `CuentaTest.TestDineroInsuficienteExceptionCuenta` | src/test/java/org/gomez/junit5app/ejemplos/models/CuentaTest.java:134-142 | debiting 1500 from 1000.123456 throws with message "Dinero Insuficiente" and leaves the balance unchanged |
| `CuentaTest.TestRelacionBancoCuenta` | src/test/java/org/gomez/junit5app/ejemplos/models/CuentaTest.java:149-170 | after two adds, a rename and a transfer: balances 1000.8989 and 3000, two accounts in the list, "Banco del Estado" read through the account's bank, "Andres" found first by owner, and "Jhon Doe" present |
| `CuentaTest.TestDebitoCuentaParametriz` | src/test/java/org/gomez/junit5app/ejemplos/models/CuentaTest.java:307-313 | each listed amount (100 to 1000) debited from the fixture's balance is accepted and leaves a strictly positive balance |
| `CuentaTest.TestDebitoCuentaCsvSource2` | src/test/java/org/gomez/junit5app/ejemplos/models/CuentaTest.java:332-344 | for each (balance, amount) row, setting the balance and debiting is accepted and leaves exactly balance − amount > 0; the owner set afterwards is the one given |

`MontoList` and
`SaldoMontoRows` hold the test's inline parameter values.
`TestDebitoCuentaParametriz` covers the three tests that debit those same
amounts: the value source, the CSV source and the method source at lines
315-322 and 360-371. The repeated test at lines 296-305 runs the same
scenario as `TestDebitoCuenta`.

## Left out

- The domain classes' own source files (`Cuenta`, `Banco`, `DineroInsuficienteException`) are not part of this model. Their behaviour is inferred from the test's assertions.
- The test harness itself is left out: lifecycle hooks other than the fixture, `TestInfo`/`TestReporter`, console output, tags, nesting, display names, and repeated or parameterised test plumbing.
- Conditional execution on the OS, JRE, system properties or environment variables, and the assumptions in the tests, are left out. They depend only on the environment.
- Timeouts and `sleep` are left out. They are about time, not the domain.
- The CSV file sources `/data.csv` and `/data2.csv` are test resources read at run time. This is file I/O, so those two tests are left out.
- The `doubleValue()` comparisons are left out because they are floating point. `TestSaldoCuenta` states the exact value instead.
- BigDecimal scale and `toPlainString` formatting are left out. Only the numeric value is modelled, so "3000" and "3000.0000" are the same value. Equality on BigDecimal values that differ only in scale is not captured.
- `null` owners, balances and amounts are not modelled. Neither is an `equals` against a non-account.
- `Models.Banco.constructor` uses an empty name. The Java default for an unset name is not visible and may be `null`.
- Getters are plain field reads of `persona`, `saldo`, `banco`, `nombre` and `cuentas`, so they have no members of their own.
- Negative amounts are accepted by debit and credit, with the same arithmetic as any other amount. The tests never pass one.
- CuentaTest.TestDebitoCuentaCsvSource2: does not state the assertion at line 342. That assertion compares two CSV columns of the test's own input and involves no domain object. As written, it fails on rows 1 and 3 of line 333 ("Jhon" against "Andres", "Maria" against "maria"). This was read from the text and not executed.
