/** The two failures the pricing code raises, and the result type that carries them. */
module PricingErrors {

  /** An offer whose parameters are out of range (with the exact message the offer raises),
      or a basket whose sub-total came out negative (raised without a message). */
  datatype PricingError =
    | OfferConfigurationError(message: string)
    | NegativeBasketPriceError

  /** A value, or the error that was raised instead of returning it. */
  datatype Result<T> = Ok(value: T) | Err(error: PricingError)
}
