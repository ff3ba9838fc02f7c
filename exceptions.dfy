/** The exception package of the banking domain. */
module Exceptions {

  /** The message every insufficient-funds failure carries. */
  const DineroInsuficienteMensaje: string := "Dinero Insuficiente"

  /** The unchecked exception a debit throws when the balance does not cover the amount. */
  datatype DineroInsuficienteException = DineroInsuficienteException(message: string)

  /** The exception exactly as the account's debit raises it. */
  function DineroInsuficiente(): DineroInsuficienteException
  {
    DineroInsuficienteException(DineroInsuficienteMensaje)
  }
}
