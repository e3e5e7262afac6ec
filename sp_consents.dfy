/** The one-field consent wrappers of the core and the aggregate that the
    ready and finished events carry. */
module ConsentData {
  import opened Common
  import opened GdprConsentModel

  /** The CCPA consent record; the core passes it through untouched. */
  datatype CcpaConsent = CcpaConsent(fields: Dict<string>)

  /** `SpGdprConsent`: the constructor stores its argument in `consents`. */
  datatype SpGdprConsent = SpGdprConsent(consents: Option<GdprConsent>)

  /** `SpCcpaConsent`: the constructor stores its argument in `consents`. */
  datatype SpCcpaConsent = SpCcpaConsent(consents: Option<CcpaConsent>)

  /** `SpConsents`: whatever the native SDK knows; either part may be null. */
  datatype SpConsents = SpConsents(gdpr: Option<SpGdprConsent>, ccpa: Option<SpCcpaConsent>)
}
