/**
 * `ContextUtils`: field-by-field conversions between the request contexts
 * of the AppGateway, AppNotifications and App2AppProvider interfaces, and
 * the test for a request that came through the AppGateway.
 */
module ContextUtils {
  /** The callsign of the AppGateway plugin, "org.rdk.AppGateway". */
  const APP_GATEWAY_CALLSIGN := "org.rdk.AppGateway"

  /** `Exchange::Context` (AppGateway). */
  datatype GatewayContext = GatewayContext(requestId: nat, connectionId: nat, appId: string)

  /** `IAppNotifications::Context`. */
  datatype NotificationContext = NotificationContext(requestId: nat, connectionId: nat, appId: string, origin: string)

  /** `IApp2AppProvider::Context`. */
  datatype ProviderContext = ProviderContext(requestId: nat, connectionId: nat, appId: string, origin: string)

  function ConvertNotificationToAppGatewayContext(c: NotificationContext): (r: GatewayContext)
    ensures r.requestId == c.requestId && r.connectionId == c.connectionId && r.appId == c.appId
  {
    GatewayContext(c.requestId, c.connectionId, c.appId)
  }

  function ConvertAppGatewayToNotificationContext(c: GatewayContext, origin: string): (r: NotificationContext)
    ensures r.requestId == c.requestId && r.connectionId == c.connectionId && r.appId == c.appId
    ensures r.origin == origin
  {
    NotificationContext(c.requestId, c.connectionId, c.appId, origin)
  }

  function ConvertAppGatewayToProviderContext(c: GatewayContext, origin: string): (r: ProviderContext)
    ensures r.requestId == c.requestId && r.connectionId == c.connectionId && r.appId == c.appId
    ensures r.origin == origin
  {
    ProviderContext(c.requestId, c.connectionId, c.appId, origin)
  }

  function ConvertProviderToAppGatewayContext(c: ProviderContext): (r: GatewayContext)
    ensures r.requestId == c.requestId && r.connectionId == c.connectionId && r.appId == c.appId
  {
    GatewayContext(c.requestId, c.connectionId, c.appId)
  }

  function ConvertProviderToLaunchDelegateContext(c: ProviderContext): (r: GatewayContext)
    ensures r.requestId == c.requestId && r.connectionId == c.connectionId && r.appId == c.appId
  {
    GatewayContext(c.requestId, c.connectionId, c.appId)
  }

  predicate IsOriginGateway(origin: string)
  {
    origin == APP_GATEWAY_CALLSIGN
  }

  /** Gateway → notification → gateway gives back the original context, whatever the origin. */
  lemma NotificationRoundTrip(c: GatewayContext, origin: string)
    ensures ConvertNotificationToAppGatewayContext(ConvertAppGatewayToNotificationContext(c, origin)) == c
  {
  }

  /** Gateway → provider → gateway gives back the original context. */
  lemma ProviderRoundTrip(c: GatewayContext, origin: string)
    ensures ConvertProviderToAppGatewayContext(ConvertAppGatewayToProviderContext(c, origin)) == c
  {
  }

  /** Notification → gateway → notification restores the context when the origin is passed back. */
  lemma NotificationContextRoundTrip(n: NotificationContext)
    ensures ConvertAppGatewayToNotificationContext(ConvertNotificationToAppGatewayContext(n), n.origin) == n
  {
  }

  /** The provider context converts to the same gateway context for the gateway and for the launch delegate. */
  lemma LaunchDelegateEqualsGateway(c: ProviderContext)
    ensures ConvertProviderToLaunchDelegateContext(c) == ConvertProviderToAppGatewayContext(c)
  {
  }

  /** The conversions drop only the origin: two provider contexts convert alike iff they differ at most in origin. */
  lemma ProviderConversionForgetsOnlyOrigin(a: ProviderContext, b: ProviderContext)
    ensures ConvertProviderToAppGatewayContext(a) == ConvertProviderToAppGatewayContext(b)
      <==> a.(origin := "") == b.(origin := "")
  {
  }
}
