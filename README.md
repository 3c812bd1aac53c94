# python-jss object layer, in Dafny

This project models the object-mapping and request-routing layer of
python-jss (`jss/jss.py`), the Python 2 client of the Casper/Jamf Pro
JSS REST API, and proves properties of it:

- **the descriptor table** (`Resources`): each resource class as a row of
  class attributes (`_url`, `id_url`, `search_types`, `container`,
  `list_type`, the `can_*` flags, the JSSFlatObject family);
- **routing** (`Routing`): `get_url`, `get_post_url` and `get_object_url`,
  with the JSSFlatObject overrides;
- **the connection** (`Transport`): the `base_url` setter and the four
  HTTP verbs. The server is an oracle `server(log, request)` that answers
  each request given every request sent before it. The connection keeps
  the log `sent`, so contracts can say exactly which requests a call
  makes, and that none is made when a capability check fails;
- **the factory** (`Factory`): `JSSObjectFactory.get_object`. It covers:
  - subset normalisation, with "general" forced in and appended to the
    caller's own list in place;
  - the capability checks;
  - reading a reply as one object or as a list of `JSSListData` records
    (`Listing`);
- **a JSS object** (`Objects`): a class whose element tree the methods edit
  in place. `Edits` specifies each edit as a function from the old tree to
  the new one. The class also has `delete`, and `save` with the PUT / 404 /
  POST protocol and the `Policy` and `Package` clean-ups;
- **the id and name accessors** (`Fields`): `id` and `name` with their
  two-place lookup, `as_list_data`, and `SearchCriteria`;
- **`JSSObjectList`** (`Lists`, `Sorting`): a class whose record list is
  sorted in place by id or by name, and whose records are fetched one at a
  time or all together in a loop.

Supporting modules:

- `Text` models Python's `int()` on strings, `str()`, `split`, `join`,
  `rstrip` and `upper`. It covers surrounding whitespace, a sign,
  whitespace after the sign (`int("- 5") == -5` in CPython 2) and
  decimal digits.
- `Xml` models the parts of ElementTree the library uses: `find`,
  `findall` and `findtext` on tag paths in document order, and replacing
  a located element.
- Python exceptions are values of `Errors.Error`.
- An operation that may raise returns a `Result`.

Where the library's documentation and its code disagree, the model
follows the code:

- With no `data`, `get_object` decides between a list and a single object
  from the type's `can_list` and `can_get` flags, not from the shape of
  the reply.
- A list reply's record count is the number of items that are not `size`
  markers. The value the `size` element reports is not consulted.

## Model

| member | source | states |
|---|---|---|
| Resources.FlatKindsNeitherListNorPost | jss/jss.py:1060-1084 | no JSSFlatObject type can list or be created |
| Resources.SearchTypes | jss/jss.py:1580-1700 | exactly Peripheral, PeripheralType and MobileDeviceInvitation are non-flat types whose search types lack "name", so a bare-string lookup on them has no route |
| Text.ParseIntOfIntToString | jss/jss.py:708-713 | `int(str(n)) == n` for every integer, so a number and its decimal string are the same lookup |
| Text.SpaceAfterSign | jss/jss.py:708-713 | a sign, then whitespace, then digits parses as the signed number, as CPython 2's `int()` reads `"- 5"` |
| Text.ParseIntRejects | jss/jss.py:708-713 | a string holding a character that is neither whitespace, a sign nor a digit makes `int()` raise, so the lookup goes on to the search types |
| Text.RStrip | jss/jss.py:283-287 | `rstrip(c)` leaves a prefix of the input that does not end in `c`, and only `c` was removed |
| Text.SplitJoin | jss/jss.py:590-592 | splitting the "&"-joined subset names gives them back when no name holds "&" |
| Transport.Jss.constructor | jss/jss.py:283-287 | the connection starts with the base URL stripped of trailing slashes and an empty request log |
| Transport.Jss.SetBaseUrl | jss/jss.py:283-287 | the base URL becomes the argument without trailing slashes, and the log is untouched |
| Transport.Jss.GetPath | jss/jss.py:303-323 | exactly one GET of the path is appended to the log, and the result is the server's reply read by `GetOutcome` |
| Transport.Jss.PutPath | jss/jss.py:344-354 | exactly one PUT of the path and body is appended, with the reply read by `PutOutcome` |
| Transport.Jss.PostPath | jss/jss.py:325-342 | exactly one POST of the path and body is appended, with the reply read by `PostOutcome` |
| Transport.Jss.DeletePath | jss/jss.py:356-365 | exactly one DELETE of the path is appended, with the reply read by `DeleteOutcome` |
| Transport.TrailingSlashesIgnored | tests/test_jamf_software_server.py:32-34 | any number of trailing slashes gives the same base URL, and the base URL never ends in "/" |
| Fields.TopLevelIdWins | jss/jss.py:797-806 | a non-empty top-level "id" is the object's id whatever "general" holds |
| Fields.GeneralIdUsed | jss/jss.py:797-806 | with no top-level "id", the id is the one under the first "general" child |
| Fields.ConnectionIdUsed | jss/jss.py:1486-1498 | an LDAPServer reads id and name under its first "connection" child |
| Fields.AsListData | jss/jss.py:967-977 | the entry has the type's `list_type` tag and reads back the object's id and name; a flat type has no `as_list_data` (AttributeError) |
| Fields.ListDataKeepsId | jss/jss.py:967-977 | a list entry read as an object has the id of the object it was made from |
| Fields.CriterionReadsBack | jss/jss.py:1914-1925 | each argument of `SearchCriteria` reads back from its element, the priority through `int` |
| Routing.GetUrl | jss/jss.py:705-726 | `None` routes to `_url`; every route extends `_url`; a flat type accepts only `None` and refuses the rest with UnsupportedSearch |
| Routing.IdAndNumeralAgree | jss/jss.py:708-713 | `get_url(n)` and `get_url(str(n))` are the same |
| Routing.TextLookup | jss/jss.py:714-726 | a string `int()` refuses is routed by search type |
| Routing.KeyValueRoute | jss/jss.py:717-721 | "key=value" with a declared key is `_url + search_types[key] + value` |
| Routing.UnknownKeyRefused | jss/jss.py:717-723 | "key=value" with an undeclared key is refused by that key's name |
| Routing.BareNameRoute | jss/jss.py:724-726 | a bare name goes to `_url + search_types["name"] + name` |
| Routing.TwoSeparatorsRefused | jss/jss.py:717-718 | a string with two "=" cannot be unpacked into key and value (ValueError) |
| Routing.ObjectUrlIsIdRoute | jss/jss.py:733-735 | an object's URL is the route `get_url` gives its id |
| Routing.FlatObjectUrl | jss/jss.py:1082-1084 | a flat object's URL is `get_url(None)` of its type |
| Routing.PostUrlIsIdZero | jss/jss.py:728-731 | the post URL is the id route of 0 |
| Listing.RecordOf | jss/jss.py:606-608 | the record has an entry for exactly the tags among the item's children |
| Listing.LastChildWins | jss/jss.py:606-608 | a tag's entry is the text of the last child with that tag |
| Listing.Items | jss/jss.py:604-605 | the items are the children whose tag is not "size", and every such child is one |
| Listing.ItemsCount | jss/jss.py:604-605 | the number of items is the number of children minus the "size" children |
| Listing.Records | jss/jss.py:606-610 | one record of the requested type per item, the i-th record holding the i-th item's children |
| Listing.ItemsSnoc | jss/jss.py:604-610 | items keep document order: a child added at the end is the last item unless it is a "size" count |
| Listing.ListId | jss/jss.py:1944-1946 | `int(self["id"])` succeeds exactly when the entry exists, has text, and that text parses; a missing entry is KeyError |
| Listing.RecordNameReadsBack | jss/jss.py:1948-1950 | `self["name"]` of a listed item is the text of its last "name" child |
| Listing.RecordIdReadsBack | jss/jss.py:1944-1946 | a record whose last "id" child holds `str(n)` has id `n` |
| Factory.Normalise | jss/jss.py:588-594 | a false subset is none; a string is split on "&"; any other true non-list raises TypeError |
| Factory.GeneralCounted | jss/jss.py:623-625 | the names sent hold "general" exactly as often as the caller's list when it was there, and exactly once when it was added |
| Factory.GetObject | jss/jss.py:564-645 | the result, the request log and the caller's subset afterwards are those of `Fetch`, the specification of `get_object` |
| Factory.Run | jss/jss.py:622-645 | carrying out a plan: no request when the plan failed or there is nothing to fetch, otherwise the planned GET, appending "general" to the caller's list when the plan says so |
| Factory.Perform | jss/jss.py:627-645 | one GET of the planned URL, its reply read as the plan's shape |
| Factory.UnreadableRefused | jss/jss.py:617-645 | a type that cannot GET refuses lookups and list requests before any request |
| Factory.OddSubsetRefused | jss/jss.py:588-594 | a subset that is neither a string nor a list raises TypeError before anything else |
| Factory.GeneralRequested | jss/jss.py:620-626 | a lookup with a subset asks for `get_url(data) + "/subset/" + names`, with "general" among the names exactly once more than the caller gave it, if the caller left it out |
| Factory.SubsetSuffixReadsBack | jss/jss.py:623-626 | the subset suffix splits back into the names sent |
| Factory.TextSubsetSuffix | jss/jss.py:588-626 | an "&" string subset without "general" is sent as itself followed by "&general" |
| Factory.ListUrl | jss/jss.py:596-604 | a list request of a listable type other than Computer goes to `_url` and is read under the container |
| Factory.BasicComputerList | jss/jss.py:599-601 | listing computers with the subset "basic" goes to "/computers/subset/basic" |
| Factory.BasicComputerListCaseless | jss/jss.py:599-601 | any single name whose `upper()` is "BASIC", as a string or as a one-name list, gives the "/computers/subset/basic" listing |
| Factory.TwoNamesListInFull | jss/jss.py:599-601 | two or more subset names never shorten a computer listing |
| Factory.NoDataShape | jss/jss.py:596-616 | with no data, a readable type's reply is read as a list exactly when the type can list |
| Factory.ListedOnePerItem | jss/jss.py:603-611 | a list reply gives one record per non-"size" child of the reply or of its container |
| Factory.FetchSendsAtMostOne | jss/jss.py:564-645 | a call sends at most one request, a GET, and none when it fails before the GET |
| Factory.FetchSubset | jss/jss.py:623-625 | the caller's subset is unchanged, or is a list without "general" that gains it once |
| Edits.SetBool | jss/jss.py:882-892 | the located element is the old one with its text set to "true" or "false", and the same path still finds it; the rest of the tree is unchanged (putting the old element back gives the old tree); ValueError exactly when nothing is located |
| Edits.SetBoolLastWins | jss/jss.py:882-892 | setting a flag twice is setting it to the second value |
| Edits.ClearList | jss/jss.py:930-937 | the located element keeps its tag and loses text and children, and stays where it was; the rest of the tree is unchanged (putting the old element back gives the old tree); ValueError exactly when nothing is located |
| Edits.ClearListIdempotent | jss/jss.py:930-937 | clearing a cleared list changes nothing |
| Edits.Hits | jss/jss.py:914-920 | the positions of exactly the entries the member selects, in increasing order |
| Edits.RemoveFromList | jss/jss.py:907-928 | for an object, `int` or string member, removal succeeds exactly when one entry is selected; it then removes that entry, none remains, and the rest of the tree is unchanged; a missing list is ValueError; a `long` or another type leaves `results` unbound |
| Edits.RemoveNeedsOneMatch | jss/jss.py:922-928 | no match or several matches fail, with ValueError for an object, `int` or string member, and nothing is removed |
| Edits.FirstWithId | jss/jss.py:903-904 | the first entry with the id, IndexError exactly when none has it |
| Edits.AddObjectToPath | jss/jss.py:894-905 | the located element gains the object's list entry at the end and stays where it was; the rest of the tree is unchanged (putting the old element back gives the old tree); ValueError or AttributeError otherwise; an object with an id gets back an entry with that id |
| Edits.AddThenRemove | jss/jss.py:894-928 | adding an object to a list that lacks it and removing it again gives back the original tree |
| Edits.MemberPath | jss/jss.py:1030-1036 | computers live under "computers/computer", mobile devices under "mobile_devices/mobile_device", other kinds are ValueError |
| Edits.AddedDeviceIsMember | jss/jss.py:1008-1039 | a device added to a static group's list is then a member |
| Edits.SetIsSmart | jss/jss.py:996-1006 | the new tree is `set_bool("is_smart", value)` of the old one, plus an empty "criteria" appended as the root's last child exactly when `value` is true and there was none; afterwards `is_smart` reads the value given |
| Edits.SetBoolKeepsOther | jss/jss.py:882-892 | setting a top-level flag leaves other top-level paths finding the same element |
| Edits.AddCriterion | jss/jss.py:983-986 | the criterion is appended to the group's first "criteria" element, which stays where it was; the rest of the tree is unchanged (putting the old element back gives the old tree); without criteria there is nothing to append to (AttributeError) |
| Edits.RemoveFirst | jss/jss.py:1846-1847 | the first child with the tag is removed and the others stay in order; ValueError (from `remove(None)`) when there is none |
| Edits.PolicyFixup | jss/jss.py:1836-1849 | a "general/category" whose id is "-1" becomes the category without its first "name" and then its first "id" child, and stays where it was; the rest of the tree is unchanged (putting the old element back gives the old tree); ValueError when it has no "name"; any other category is left alone; a missing category is AttributeError |
| Edits.PackageFixup | jss/jss.py:1677-1689 | a "category" reading "No category assigned" gets the text "" and the rest of the tree is unchanged; any other tree is left as it is; afterwards "category" never reads the placeholder; a missing category is AttributeError |
| Edits.PackageFixupIdempotent | jss/jss.py:1677-1689 | the package clean-up is idempotent |
| Sorting.Insert | jss/jss.py:1985-1991 | inserting adds exactly the new item |
| Sorting.InsertionSort | jss/jss.py:1985-1991 | the sort is a permutation |
| Sorting.SortIsSorted | jss/jss.py:1985-1991 | the sort puts keys in Python 2 order |
| Sorting.SortIsStable | jss/jss.py:1985-1991 | items with equal keys keep their order |
| Sorting.KeyLeTotal | jss/jss.py:1985-1991 | any two keys compare (None below numbers below strings) |
| Sorting.KeyLeTrans | jss/jss.py:1985-1991 | key order is transitive |
| Sorting.KeyLeAntisym | jss/jss.py:1985-1991 | keys that compare both ways are equal |
| Sorting.KeyEachSpec | jss/jss.py:1985-1991 | every item gets the key `id` or `name` gives it, before anything moves; a failure is some item's error |
| Sorting.SortFailsOnBadKey | jss/jss.py:1985-1991 | a sort fails exactly when some key raises |
| Sorting.SortedListPermutes | jss/jss.py:1985-1991 | a successful sort only rearranges the records |
| Sorting.SortedListOrdered | jss/jss.py:1985-1991 | after a successful sort the records are in key order |
| Sorting.SortedListStable | jss/jss.py:1985-1991 | records with the same key keep their relative order |
| Objects.JssObject.constructor | jss/jss.py:671-692 | an object built from an element has its tag and children |
| Objects.JssObject.Clear | jss/jss.py:785 | `self.clear()` leaves the tag and drops the text and the children |
| Objects.JssObject.RefillFrom | jss/jss.py:785-787 | the loop leaves the tree equal to `Refill` of the old tree |
| Objects.JssObject.SetBool | jss/jss.py:882-892 | the tree becomes `Edits.SetBool` of the old tree, or stays when that fails |
| Objects.JssObject.ClearList | jss/jss.py:930-937 | the tree becomes `Edits.ClearList` of the old tree, or stays |
| Objects.JssObject.RemoveObjectFromList | jss/jss.py:907-928 | the tree becomes `Edits.RemoveFromList` of the old tree, or stays unchanged on any error |
| Objects.JssObject.AddObjectToPath | jss/jss.py:894-905 | the tree becomes `Edits.AddObjectToPath` of the old tree, and the returned entry is the first with the object's id |
| Objects.JssObject.AddDevice | jss/jss.py:1008-1022 | the tree becomes `Edits.AddDevice` of the old tree, or stays |
| Objects.JssObject.SetIsSmart | jss/jss.py:996-1006 | the tree becomes `Edits.SetIsSmart` of the old tree, or stays |
| Objects.JssObject.AddCriterion | jss/jss.py:983-986 | the tree becomes `Edits.AddCriterion` with the `SearchCriteria` element, or stays |
| Objects.JssObject.Delete | jss/jss.py:737-741 | a type that cannot delete refuses and sends nothing; otherwise one DELETE of the object's URL, whose reply decides the outcome |
| Objects.JssObject.Save | jss/jss.py:1836-1849 | the outcome, tree and log are those of `SaveWithFixup`: the Policy or Package clean-up, then `JSSObject.save` |
| Objects.JssObject.BaseSave | jss/jss.py:743-787 | the outcome, tree and log are those of `SaveSpec`, the decision table of `save` |
| Objects.JssObject.Create | jss/jss.py:757-768 | the outcome, tree and log are those of `AfterPost`: a POST to the post URL, then `get_object` of the new id |
| Objects.JssObject.Update | jss/jss.py:754-773 | the outcome, tree and log are those of `AfterPut`: the PUT, then the GET that refreshes the tree, or the POST branch on a 404 |
| Objects.PutShape | jss/jss.py:754-773 | the PUT branch keeps the tree on failure, except the AttributeError after `self.clear()`, which leaves only the tag; it keeps the tag and drops the text on success, and sends at most three requests |
| Objects.MissingThenPost | jss/jss.py:759-764 | a 404 on the PUT of a type that can create is followed by a POST of the same tree to the post URL |
| Objects.PutBodies | jss/jss.py:754-768 | every PUT or POST the PUT branch sends carries the tree being saved |
| Objects.SaveNeedsAWrite | jss/jss.py:749-751 | a type that can neither PUT nor POST refuses to save and sends nothing |
| Objects.SaveShape | jss/jss.py:743-787 | a failed save keeps the tree, except the AttributeError after `self.clear()`, which leaves only the tag; a successful one keeps the tag and drops the text; the log only grows, by at most three requests |
| Objects.PostShape | jss/jss.py:757-768 | the POST branch keeps the tree on failure, except the AttributeError after `self.clear()`, which leaves only the tag; it keeps the tag and drops the text on success, and sends at most two requests |
| Objects.PostNotSingleClears | jss/jss.py:785-786 | when `get_object` of the new id gives anything but one object, `self.clear()` has already run when `getchildren` raises AttributeError: the tree keeps only its tag |
| Objects.HugeIdClears | jss/jss.py:338-341 | an id beyond a machine `int` makes `get_object` return `None` with no request, so the save fails with AttributeError, the tree cleared, and only the POST sent |
| Objects.CreatedInPlace | jss/jss.py:757-768 | an accepted POST whose new id then fetches one object sends exactly the POST and the GET of that id, and the tree takes the fetched children |
| Objects.PostOnlySaveCreates | jss/jss.py:775-787 | a type that can POST but not PUT saves by that POST and GET alone and refills the tree from it |
| Objects.UpdateInPlace | jss/jss.py:754-758 | an accepted PUT is followed by a GET of the same URL, and the tree takes the GET's children |
| Objects.CreateWhenMissing | jss/jss.py:759-768 | a 404 on the PUT is followed by a POST of the same tree to the post URL when the type can create |
| Objects.MissingWithoutPost | jss/jss.py:769-770 | a 404 on a type that cannot create is MethodNotAllowed, after the PUT alone |
| Objects.PutRefused | jss/jss.py:771-773 | any other failed PUT is reported with its status, and nothing more is sent |
| Objects.PackagePlaceholderNeverSent | jss/jss.py:1677-1689 | no PUT or POST from a Package save carries "No category assigned" |
| Objects.SaveBodies | jss/jss.py:754-781 | every PUT or POST a save sends carries the tree being saved |
| Lists.IdMatches | jss/jss.py:2002 | the positions of exactly the records whose id is the one asked for |
| Lists.JssObjectList.constructor | jss/jss.py:1964-1967 | the list holds the type and the records given |
| Lists.JssObjectList.SortBy | jss/jss.py:1985-1991 | the records become `SortedList` of the old records, or stay when a key raises |
| Lists.JssObjectList.Retrieve | jss/jss.py:1993-1995 | an index out of range or a bad id sends nothing; otherwise the call is `get_object` of the record's id |
| Lists.JssObjectList.RetrieveById | jss/jss.py:1997-2005 | the object is fetched only when exactly one record has the id; otherwise `None` with no request |
| Lists.JssObjectList.RetrieveAll | jss/jss.py:2007-2029 | the results, the log and the subset afterwards are those of `FetchEach` with `get_object` by id as its step: one call per record in order, the first error stopping the loop |
| Lists.NegativeIndexWraps | jss/jss.py:1993-1995 | `retrieve(i - len)` names the same record as `retrieve(i)` |
| Lists.RetrieveByIdNeedsUniqueId | jss/jss.py:2002-2005 | a record whose id no other record has is the one `retrieve_by_id` fetches |
| Lists.GetStepBehaves | jss/jss.py:2024-2026 | `get_object` by id, as a step of `retrieve_all`, sends at most one request and at most appends "general" to a list without it |
| Lists.FetchEachCounts | jss/jss.py:2007-2029 | a successful `retrieve_all` gives one result per record |
| Lists.FetchEachSends | jss/jss.py:2007-2029 | `retrieve_all` only appends to the request log, at most one request per record |
| Lists.GeneralAppendedOnce | jss/jss.py:2023-2026 | however many records there are, the caller's subset list gains "general" at most once |

## Left out

- `JSSPrefs`, the plist reading and the preferences file: configuration I/O.
- The HTTP session, headers, TLS adapter and `quote()` of the path are not
  modelled. A request is identified by its path below the API root.
  `ApiUrl` shows how that root is formed, and the server oracle stands for
  everything beyond it.
- `_error_handler`'s scraping of HTML error bodies is not modelled.
  `Transport.PutOutcome` and its siblings keep only the status.
- Objects.JssObject.BaseSave: re-raising `JSSPutError(put_error)` and
  `JSSPostError(e)` wraps the first exception in a new one. The model
  reports the original error with its status.
- `FileUpload`, the LDAPServer searches, `__repr__`, `_indent`,
  `pretty_find`, `search` and `from_file`/`from_string` are not modelled:
  they are file, network or console I/O.
- The `distribution_points` collaborator is not modelled.
- The `new()` templates of the resource classes are not modelled, and
  neither are the other per-class helpers (`Policy.add_object_to_scope`,
  `Package.set_os_requirements` and so on). They build or edit trees in
  ways outside the object layer described above.
- XML attributes and tails are not modelled. Locations are tag paths,
  which is the form the library's own callers use, not `Element`
  arguments or full XPath.
- Objects.JssObject.AddCriterion: the attribute `self.criteria` is not
  modelled. Only `ComputerGroup.__init__` (jss.py:1205) and the `is_smart`
  setter, when it creates the element (jss.py:1006), set it. The model
  appends to the first "criteria" child instead, which differs from the
  source in two cases:
  - A group without the attribute raises AttributeError at jss.py:986.
    This covers a MobileDeviceGroup read from the server, and one that
    already had criteria when `is_smart = True` ran.
  - After `save()` refills the tree, a ComputerGroup's cache still points
    at the old, detached "criteria" element. The criterion then never
    reaches the tree.
- Fields.ConnectionIdUsed: `get_url` on the LDAPUsersResults and
  LDAPGroupsResults types, whose `_url` is `None`, is not given its own
  lemma. Its routes begin with "None", as Python's formatting renders it.
- Unicode strings, and the byte encoding of request bodies, are not
  modelled. Strings are sequences of characters.
- A Python `long`, and `unicode` data, are only modelled where they change
  a branch: in `get_url`, `get_object` and `remove_object_from_list`.
- `bool(value)` on non-booleans is not modelled: flags are `bool`.
- Lists.JssObjectList.RetrieveById: `id_` is an integer in the model.
  Python's `==` also lets a float or a bool equal to an integer (`5.0`,
  `True`) match like that integer. A string or other value matches no
  record and returns `None`. Neither case is modelled.
- Objects.JssObject.AddDevice: its docstring also allows an id or a name.
  `add_object_to_path` then calls `obj.as_list_data()` on that value, which
  raises AttributeError. The model takes a `JssObject` only, so this
  error path is not modelled.
- `get_object` results are values (`Fetched`: an element tree, a list of
  records, or nothing), not new `JSSObject` or `JSSObjectList`
  instances. `Objects.JssObject.constructor` and
  `Lists.JssObjectList.constructor` build those instances from the
  values.
- Transport.TrailingSlashesIgnored: the two other tests in the test files
  need a live server and are not modelled.
