/** The M-Pesa (Daraja) STK-push client, seen from the payments route: a call over the network
    that either accepts the push and hands back a `CheckoutRequestID`, or throws. */
module Gateway {
  import opened Common

  datatype GatewayReply = Token(checkoutRequestId: string) | Failure

  /** `daraja.stkPush({ amount, phone, accountReference: "Rent-" + tenant, ... })`.
      The answer depends on the network and on the gateway, so it is left open: any reply,
      any token. */
  method StkPush(amount: int, phone: string, tenant: Id) returns (reply: GatewayReply)
  {
    reply :| true;
  }
}
