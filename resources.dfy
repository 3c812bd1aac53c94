/** The per-type descriptor table: every JSSObject subclass of the library
    is one row here, holding the class attributes that drive routing and
    the capability checks. */
module Resources {

  /** The resource types the library declares. */
  datatype Kind =
    | Account | AccountGroup | ActivationCode | AdvancedComputerSearch
    | AdvancedMobileDeviceSearch | AdvancedUserSearch | Building | BYOProfile
    | Category | Class | Computer | ComputerCheckIn | ComputerCommand
    | ComputerConfiguration | ComputerExtensionAttribute | ComputerGroup
    | ComputerInventoryCollection | ComputerInvitation | ComputerReport
    | Department | DirectoryBinding | DiskEncryptionConfiguration
    | DistributionPoint | DockItem | EBook | GSXConnection | IBeacon | JSSUser
    | LDAPServer | LDAPUsersResults | LDAPGroupsResults | LicensedSoftware
    | MacApplication | ManagedPreferenceProfile | MobileDevice
    | MobileDeviceApplication | MobileDeviceCommand
    | MobileDeviceConfigurationProfile | MobileDeviceEnrollmentProfile
    | MobileDeviceExtensionAttribute | MobileDeviceInvitation
    | MobileDeviceGroup | MobileDeviceProvisioningProfile | NetbootServer
    | NetworkSegment | OSXConfigurationProfile | Package | Peripheral
    | PeripheralType | Policy | Printer | RestrictedSoftware
    | RemovableMACAddress | SavedSearch | Script | Site
    | SoftwareUpdateServer | SMTPServer | UserExtensionAttribute | User
    | UserGroup | VPPAccount

  /** Where the `id` and `name` accessors look: the generic two-place lookup
      (top level, then "general/"), or LDAPServer's "connection/". */
  datatype IdLocation = TopOrGeneral | Connection

  /** The class attributes of one resource type (a row of the table).
      `flat` marks the JSSFlatObject family, whose routing ignores lookups
      and which has no `as_list_data`. */
  datatype Descriptor = Descriptor(
    url: string,
    idUrl: string,
    searchTypes: map<string, string>,
    defaultSearch: string,
    container: string,
    canList: bool,
    canGet: bool,
    canPut: bool,
    canPost: bool,
    canDelete: bool,
    flat: bool,
    listType: string,
    idLocation: IdLocation)

  const NameSearch: map<string, string> := map["name" := "/name/"]

  const DeviceSearch: map<string, string> :=
    map["name" := "/name/", "serial_number" := "/serialnumber/", "udid" := "/udid/",
        "macaddress" := "/macadress/", "match" := "/match/"]

  /** The row of one resource type, assembled from the attribute columns
      below; each column lists the classes that override the attribute
      they inherit from JSSObject, JSSContainerObject or JSSFlatObject. */
  function Describe(k: Kind): Descriptor {
    var c := CapabilitiesOf(k);
    Descriptor(Url(k), IdUrl(k), SearchTypes(k), "name", ContainerTag(k),
               c.list, c.get, c.put, c.post, c.delete, IsFlat(k), ListType(k),
               if k == LDAPServer then Connection else TopOrGeneral)
  }

  /** The JSSFlatObject subclasses. */
  predicate IsFlat(k: Kind) {
    k == ActivationCode || k == ComputerCheckIn || k == ComputerInventoryCollection ||
    k == GSXConnection || k == JSSUser || k == SMTPServer
  }

  /** `_url`. LDAPUsersResults and LDAPGroupsResults inherit `_url = None`,
      which Python's "%s" renders as "None". */
  function Url(k: Kind): string {
    match k
    case Account => "/accounts"
    case AccountGroup => "/accounts"
    case ActivationCode => "/activationcode"
    case AdvancedComputerSearch => "/advancedcomputersearches"
    case AdvancedMobileDeviceSearch => "/advancedmobiledevicesearches"
    case AdvancedUserSearch => "/advancedusersearches"
    case Building => "/buildings"
    case BYOProfile => "/byoprofiles"
    case Category => "/categories"
    case Class => "/classes"
    case Computer => "/computers"
    case ComputerCheckIn => "/computercheckin"
    case ComputerCommand => "/computercommands"
    case ComputerConfiguration => "/computerconfigurations"
    case ComputerExtensionAttribute => "/computerextensionattributes"
    case ComputerGroup => "/computergroups"
    case ComputerInventoryCollection => "/computerinventorycollection"
    case ComputerInvitation => "/computerinvitations"
    case ComputerReport => "/computerreports"
    case Department => "/departments"
    case DirectoryBinding => "/directorybindings"
    case DiskEncryptionConfiguration => "/diskencryptionconfigurations"
    case DistributionPoint => "/distributionpoints"
    case DockItem => "/dockitems"
    case EBook => "/ebooks"
    case GSXConnection => "/gsxconnection"
    case IBeacon => "/ibeacons"
    case JSSUser => "/jssuser"
    case LDAPServer => "/ldapservers"
    case LDAPUsersResults => "None"
    case LDAPGroupsResults => "None"
    case LicensedSoftware => "/licensedsoftware"
    case MacApplication => "/macapplications"
    case ManagedPreferenceProfile => "/managedpreferenceprofiles"
    case MobileDevice => "/mobiledevices"
    case MobileDeviceApplication => "/mobiledeviceapplications"
    case MobileDeviceCommand => "/mobiledevicecommands"
    case MobileDeviceConfigurationProfile => "/mobiledeviceconfigurationprofiles"
    case MobileDeviceEnrollmentProfile => "/mobiledeviceenrollmentprofiles"
    case MobileDeviceExtensionAttribute => "/mobiledeviceextensionattributes"
    case MobileDeviceInvitation => "/mobiledeviceinvitations"
    case MobileDeviceGroup => "/mobiledevicegroups"
    case MobileDeviceProvisioningProfile => "/mobiledeviceprovisioningprofiles"
    case NetbootServer => "/netbootservers"
    case NetworkSegment => "/networksegments"
    case OSXConfigurationProfile => "/osxconfigurationprofiles"
    case Package => "/packages"
    case Peripheral => "/peripherals"
    case PeripheralType => "/peripheraltypes"
    case Policy => "/policies"
    case Printer => "/printers"
    case RestrictedSoftware => "/restrictedsoftware"
    case RemovableMACAddress => "/removablemacaddresses"
    case SavedSearch => "/savedsearches"
    case Script => "/scripts"
    case Site => "/sites"
    case SoftwareUpdateServer => "/softwareupdateservers"
    case SMTPServer => "/smtpserver"
    case UserExtensionAttribute => "/userextensionattributes"
    case User => "/users"
    case UserGroup => "/usergroups"
    case VPPAccount => "/vppaccounts"
  }

  /** `id_url`: "/id/" unless overridden. */
  function IdUrl(k: Kind): string {
    match k
    case Account => "/userid/"
    case AccountGroup => "/groupid/"
    case SMTPServer => ""
    case _ => "/id/"
  }

  /** `search_types`: {"name": "/name/"} for JSSObject, {} for JSSFlatObject,
      unless overridden. */
  function SearchTypes(k: Kind): (r: map<string, string>)
    ensures !IsFlat(k) && "name" !in r <==> k == Peripheral || k == PeripheralType || k == MobileDeviceInvitation
  {
    match k
    case Account => map["userid" := "/userid/", "username" := "/username/", "name" := "/username/"]
    case AccountGroup => map["groupid" := "/groupid/", "groupname" := "/groupname/", "name" := "/groupname/"]
    case Computer => DeviceSearch
    case MobileDevice => DeviceSearch
    case ComputerInvitation => map["name" := "/name/", "invitation" := "/invitation/"]
    case MobileDeviceEnrollmentProfile => map["name" := "/name/", "invitation" := "/invitation/"]
    case MobileDeviceCommand => map["name" := "/name/", "uuid" := "/uuid/", "command" := "/command/"]
    case MobileDeviceInvitation => map["invitation" := "/invitation/"]
    case MobileDeviceProvisioningProfile => map["name" := "/name/", "uuid" := "/uuid/"]
    case Peripheral => map[]
    case PeripheralType => map[]
    case _ => if IsFlat(k) then map[] else NameSearch
  }

  /** `container`: the child a list reply nests its items under, "" for none. */
  function ContainerTag(k: Kind): string {
    match k
    case Account => "users"
    case AccountGroup => "groups"
    case _ => ""
  }

  /** `list_type`: the tag `as_list_data` and `new` give an element of this type. */
  function ListType(k: Kind): string {
    match k
    case ActivationCode => "activation_code"
    case Building => "building"
    case BYOProfile => "byoprofiles"
    case Category => "category"
    case Computer => "computer"
    case ComputerConfiguration => "computer_configuration"
    case ComputerGroup => "computer_group"
    case Department => "department"
    case IBeacon => "ibeacon"
    case MacApplication => "mac_application"
    case MobileDevice => "mobile_device"
    case MobileDeviceGroup => "mobile_device_group"
    case Package => "package"
    case Policy => "policy"
    case Script => "script"
    case Site => "site"
    case VPPAccount => "vpp_account"
    case _ => if IsFlat(k) then "JSSObject" else "JSSContainerObject"
  }

  /** The `can_list`, `can_get`, `can_put`, `can_post`, `can_delete` flags. */
  datatype Capabilities = Capabilities(list: bool, get: bool, put: bool, post: bool, delete: bool)

  const All := Capabilities(true, true, true, true, true)

  function CapabilitiesOf(k: Kind): Capabilities {
    match k
    case ActivationCode => All.(delete := false, post := false, list := false)
    case BYOProfile => All.(delete := false, post := false)
    case ComputerCheckIn => All.(delete := false, list := false, post := false)
    case ComputerCommand => All.(delete := false, put := false)
    case ComputerInventoryCollection => All.(list := false, post := false, delete := false)
    case ComputerInvitation => All.(put := false)
    case ComputerReport => All.(put := false, post := false, delete := false)
    case GSXConnection => All.(list := false, post := false, delete := false)
    case JSSUser => All.(list := false, post := false, put := false, delete := false)
    case LDAPUsersResults => All.(get := false, post := false, put := false, delete := false)
    case LDAPGroupsResults => All.(get := false, post := false, put := false, delete := false)
    case MobileDeviceCommand => All.(put := false, delete := false, post := false)
    case MobileDeviceInvitation => All.(put := false)
    case SavedSearch => All.(put := false, post := false, delete := false)
    case SMTPServer => All.(list := false, post := false)
    case _ => All
  }

  /** The JSSGroupObject family, which has the device-membership helpers. */
  predicate IsGroup(k: Kind) {
    k == ComputerGroup || k == MobileDeviceGroup
  }

  /** Flat types answer a list request with the whole object and cannot be
      created: none of them lists or posts. */
  lemma FlatKindsNeitherListNorPost(k: Kind)
    requires IsFlat(k)
    ensures !CapabilitiesOf(k).list && !CapabilitiesOf(k).post
  {
    assert k in {ActivationCode, ComputerCheckIn, ComputerInventoryCollection,
                 GSXConnection, JSSUser, SMTPServer};
  }
}
