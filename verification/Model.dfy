/** Row types, the constants stored in their columns, and the errors store methods return. */
module Model {
  import opened Text

  const SUBDOMAIN := "subdomain"
  const TCP_PORT := "tcp_port"
  const UDP_PORT := "udp_port"

  const HTTP := "http"
  const HTTPS := "https"
  const TCP := "tcp"
  const UDP := "udp"

  const ENABLED := "enabled"
  const DISABLED := "disabled"
  const AVAILABLE := "available"

  const DEFAULT_LOCAL_IP := "127.0.0.1"

  datatype Tenant = Tenant(id: int, code: string, name: string, tokenHash: string, status: string,
                           description: string, lastSeen: Option<int>)

  datatype Zone = Zone(id: int, name: string, zone: string, status: string)

  datatype Resource = Resource(id: int, typ: string, value: string, zoneId: Option<int>, status: string)

  datatype Grant = Grant(id: int, tenantId: int, resourceId: int, status: string)

  datatype Proxy = Proxy(id: int, tenantId: int, resourceId: int, name: string, proxyType: string,
                         localIP: string, localPort: int, status: string)

  datatype TenantInput = TenantInput(code: string, name: string, tokenHash: string, description: string)

  datatype ProxyInput = ProxyInput(tenantId: int, resourceId: int, name: string, proxyType: string,
                                   localIP: string, localPort: int)

  datatype Error =
    | EmptyField
    | TenantNotFound | TenantDisabled | DuplicateCode
    | DomainZoneNotFound | DuplicateZone | NoEnabledDomainZone | SubdomainNeedsZone | DomainZoneDisabled
    | ResourceNotFound | ResourceDisabled | DuplicateResource | InvalidPort | NotANumber
    | ResourceAlreadyGranted | GrantNotFound
    | ProxyNotFound | InvalidProxyType | ProxyTypeResourceMismatch | ResourceNotGrantedToTenant
    | DuplicateProxyName
    | Internal

  predicate ValidPort(port: int) {
    1 <= port <= 65535
  }

  predicate ValidProxyType(t: string) {
    t == HTTP || t == HTTPS || t == TCP || t == UDP
  }

  predicate ProxyTypeMatchesResource(proxyType: string, resourceType: string) {
    if proxyType == HTTP || proxyType == HTTPS then resourceType == SUBDOMAIN
    else if proxyType == TCP then resourceType == TCP_PORT
    else if proxyType == UDP then resourceType == UDP_PORT
    else false
  }

  /** The literals above are pairwise different where the code branches on them. */
  lemma ConstantsDistinct()
    ensures TCP != UDP && TCP != HTTP && TCP != HTTPS && UDP != HTTP && UDP != HTTPS
    ensures SUBDOMAIN != TCP_PORT && SUBDOMAIN != UDP_PORT && TCP_PORT != UDP_PORT
  {
    assert TCP[0] != UDP[0];
    assert TCP_PORT[0] != UDP_PORT[0];
  }
}
