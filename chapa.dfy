/**
 The replies of the Chapa payment gateway, as the payment views read them.
 The HTTP round trips themselves are not modelled: each reply is an input.
 */
module Chapa {
  import opened Store

  const HttpOk: int := 200

  /** The only gateway status a verification treats as paid. */
  const SuccessStatus: string := "success"

  /** Reply to `POST /transaction/initialize`: the status code, the raw JSON
      body (returned to the client on failure) and `data.checkout_url`. */
  datatype InitReply = InitReply(code: int, payload: string, checkoutUrl: Option<string>)

  /** Reply to `GET /transaction/verify/{tx_ref}`: the status code, the raw
      JSON body, `data.status` and `data.id`. */
  datatype VerifyReply = VerifyReply(code: int, payload: string, status: Option<string>, transactionId: Option<string>)

  predicate Succeeded(reply: VerifyReply)
  {
    reply.status == Some(SuccessStatus)
  }
}
