# barely-ap: a verified model of both ends of WPA2 and WPA3 link security

The program is an authenticator (`src/ap`) and a supplicant (`src/client`). Both take one frame at a
time, change their state and return frames. This project models them and proves what their comments
and the standard promise over whole runs.

How the model is put together:

- **Specification and program form.** `Supplicant` and `Authenticator` give each handler as a function
  from the old state to the new one. `ClientObject.Client` and `AccessPointObject.AccessPoint` perform
  the same handlers by assignment and loops and are proved to compute those functions. Their `Run`
  methods take any sequence of events and promise what is proved about runs of the functions: the
  log is the specification's, the packet numbers in it strictly increase, and windows climb. The
  other stateful parts (`EapolTimers`, `Maintenance`, `SaeAdmission`, `RateLimit`, `FailureLog`,
  `DataPlane`) have their specification and their class in one module; `RetryTimers` runs the
  authenticator and `EapolTimers` together, `LazyMaintenance` the authenticator and `Maintenance`.
  Loops over octets (`KeyWrap`, `KeyData`, `Ccm`, `Bip`, `AntiClogging`, `MultiLink`) are methods
  proved against recursive functions.
- **Symbolic keys.** In the handshakes a key is a term naming the PMK, the unordered addresses and the
  unordered nonces it came from; a MIC is a term naming its key and the whole frame. The attacker
  (`Handshake`) delivers, loses, repeats and reorders anything, and sends any frame except one with a
  new MIC under a key of an uncompromised PMK. Every PMK outside a given set is uncompromised. There
  are any number of honest stations, on one PMK or several.
- **Random values** are parameters of the events. `FreshRandom` says that a nonce drawn was not drawn
  or received before, and, at the authenticator, that a GTK was not drawn before.
- **Octets.** Key wrap, key data, CCM, frames, BIP, tokens and Multi-Link elements are modelled octet
  by octet over arbitrary functions for the block cipher, HMAC and CMAC. GCM is an arbitrary pair of
  functions that open exactly what they seal, the property that is proved for CCM.

## Where the code and its promises differ

- *Packet number order.* The CCMP header carries PN2 to PN5 least significant first
  (`src/frames/data.rs:71-83`) and the reader takes the same four octets most significant first
  (`src/structures/common.rs:173-186`). `DataFrames.PnReadsBackIff` gives the exact condition under
  which a number reads back; `DataFrames.FirstLostPn` and `DataPlane.UplinkDeliversIff` say what
  follows: of the frames under one key the 65536th is the first that is not delivered. This is so in
  the model, which follows the code.
- *Lazy maintenance.* The deadline covers incomplete SAE exchanges of unassociated stations only. An
  open authentication that ends an association whose SAE exchange is incomplete starts such an expiry
  without scheduling it (`src/ap/receive.rs:245-306`). `Maintenance.HandleKeepsIff` gives the exact
  condition and `Maintenance.CornerIsReachable` a run that reaches it.
- *Admission.* The incomplete-exchange count takes a station that is both incomplete and queued twice,
  and exchanges that exist already are not subject to the cap (`src/ap/sae_auth.rs:135-146, 253`). What
  is bounded by 64 is the number of distinct addresses; the count itself is bounded by 128.
- *Multi-Link elements.* The builder fragments long elements and the strict parser does not
  defragment. `MultiLink.ParsesBackIff` says what it then returns: nothing, or, when the first piece
  ends exactly between two profiles, silently fewer profiles (`MultiLink.ProfilesLostSilently`).
- *Fragmentation.* A body of exactly 255 octets is sent as one element, which a reader cannot tell from
  the first piece of a longer one if a Fragment element follows (`MultiLink.DefragmentsIff`).

## Model

| member | source | states |
|---|---|---|
| Handshake.KeyAgreement | src/client/handshake.rs:156-322 | In every reachable world of the authenticator, any number of stations, which may share a PMK, and an attacker-controlled network: a PTK a supplicant installs under an uncompromised PMK was retained by the authenticator, one the authenticator installs was installed by a supplicant whose address is in it, and each supplicant's group key with its key id was sent by the authenticator |
| Handshake.StationAgreement | src/ap/handshake.rs:102-206 | Where no address is claimed for two stations, the same station by station: what the authenticator installs for a station that station had installed, and what a station installs was retained for it |
| Handshake.FromAuthenticator | src/ap/handshake.rs:496-572 | A deliverable frame with a valid MIC under an honest KCK that asks for acknowledgement was sent by the authenticator, whatever other honest stations send; if it also asks for installation, its PTK was retained first |
| Handshake.FromSupplicant | src/client/handshake.rs:156-286 | A deliverable secure pairwise frame without acknowledgement bit (message 4) whose MIC verifies under an honest KCK is from a station that had installed that very temporal key |
| Handshake.SelectedIsInstalled | src/ap/handshake.rs:102-152 | The candidate message 4 selects is, for an honest PMK, one a supplicant had installed |
| Handshake.CommitKeeps | src/client/handshake.rs:288-322 | Installing the pending PTK keeps the station's part of the invariant, given that the authenticator retained it |
| Handshake.M4Keeps | src/ap/handshake.rs:109-207 | Every outcome of a message 4, commit or refusal, keeps the authenticator's half of the invariant |
| Handshake.IssueM3Keeps | src/ap/handshake.rs:421-572 | Retaining a candidate and sending message 3 keeps the authenticator's half of the invariant, with eviction at eight candidates |
| HonestExchange.FourMessagesAgree | src/ap/association.rs:417-518 | Between compatible ends the four messages delivered in order make both install the same TK and give the supplicant the GTK in use; at each end the packet number and the windows restart if and only if that TK was not installed there before, and are unchanged otherwise |
| HonestExchange.SupplicantAnswers | src/client/handshake.rs:6-117 | Message 1 is answered with message 2 of a candidate derived from its ANonce; nothing else of the session changes |
| HonestExchange.AuthenticatorAnswers | src/ap/handshake.rs:209-442 | That message 2 matches the PMK both hold, and the candidate retained has the PTK the supplicant derived |
| HonestExchange.AuthenticatorCompletes | src/ap/handshake.rs:102-206 | The matching message 4 commits the one retained candidate and changes no other station |
| HonestExchange.DeliveryIsAcceptable | src/ap/handshake.rs:455-551 | What message 3 delivers passes every check of the supplicant (RSC range, GTK, IGTK under PMF, OCI), and its GTK is the BSS's or the station's own |
| SupplicantRuns.NoPacketNumberTwice | src/client/configuration.rs:194-204 | With fresh SNonces, over every run with message 3 retries, rekeys and reconnects: the packet numbers sent under one TK strictly increase, and so do the numbers accepted on each pairwise counter |
| SupplicantRuns.CommitKeeps | src/client/handshake.rs:288-322 | Committing a pending PTK keeps the run invariant: the packet number restarts only with a key never used before |
| SupplicantRuns.RunKeeps | src/client/session.rs:74-109 | Every reachable state satisfies the invariant tying the sent packet numbers, the accepted numbers and the nonces to the installed and pending keys, session resets included |
| ReplayWindows.AcceptedNumbersClimb | src/client/receive.rs:369-422 | While its key stays installed, each of the pairwise, group, management and BIP counters accepts strictly increasing numbers, all above its window at the start and none above it at the end |
| ReplayWindows.InstallLowersNone | src/client/group_keys.rs:42-83 | Delivering group keys, identical or new, never lowers a window of a key that stays installed and leaves pairwise state alone |
| ReplayWindows.CommitLowersNone | src/client/handshake.rs:288-322 | Committing a PTK equal to the installed one lowers neither the transmit number nor a window |
| ReplayWindows.HandleSound | src/client/management.rs:69-123 | Every event accepts only numbers above the window and leaves no window of a surviving key lower |
| ReplayWindows.NoneLoweredMeans | src/client/group_keys.rs:42-69 | The invariant in terms of one counter: a window read before and after under the same key has not gone down |
| ForgedMessages.UnauthenticatedKeepsSession | src/client/receive.rs:10-85 | A frame whose MIC verifies under no key held changes at most the pending candidate, the handshake phase and one transmit number; unless it is a message 1 it changes nothing |
| ForgedMessages.HonestHandshakeCommitsIff | src/client/session.rs:177-197 | From every associated state an honest message 1 admitted by the PMF gate pends; after any frames whose MIC proves nothing, forged messages 1 included, its message 3 is committed if and only if no such frame replaced the candidate (an answered message 1 with another ANonce or an older counter) or raised its counter past message 3; otherwise message 3 changes nothing |
| ForgedMessages.HonestHandshakeCommits | src/client/receive.rs:48-85 | In every reachable associated state, whatever candidate earlier forgeries left: with noise that spares the candidate, the honest handshake is committed with exactly the PTK of its message 1 |
| ForgedMessages.ForgedM1Breaks | src/client/session.rs:186-197 | A message 1 that anyone can build, delivered between an honest message 1 and its message 3, makes the supplicant drop that message 3; the session stays associated |
| ForgedMessages.NextHandshakeCommits | src/client/session.rs:186-197 | From the state a broken handshake leaves, as from every associated one, the next honest message 1 and its message 3 complete the handshake |
| ForgedMessages.HonestM1Pends | src/client/session.rs:177-197 | An honest message 1 always leaves a pending candidate for its ANonce and counter, with a fresh SNonce or the one already pending |
| ForgedMessages.HonestM3Commits | src/client/handshake.rs:156-286 | The message 3 of the pending candidate with a newer counter and acceptable keys installs that candidate and completes the handshake |
| ForgedMessages.UnauthenticatedTakesNothing | src/client/handshake.rs:165-183 | Message 3 and group message 1 processing return the state unchanged when no MIC verifies |
| ClientObject.Client.NextClientPn | src/client/configuration.rs:194-204 | Takes the next transmit number while there is one below 2^48, and none otherwise; result and new state equal the operation of Supplicant |
| ClientObject.Client.EncryptUplink | src/client/data.rs:7-77 | Seals under the installed key with the next number, only when connected; result and new state equal the operation of Supplicant |
| ClientObject.Client.TxEapol | src/client/handshake.rs:135-154 | Sends bare or sealed as the received frame was, sealed only while connected with a number left; result and new state equal the operation of Supplicant |
| ClientObject.Client.SendEapol2 | src/client/handshake.rs:6-117 | Derives into the pending candidate only and answers with message 2; result and new state equal the operation of Supplicant |
| ClientObject.Client.SendEapol2Retry | src/client/handshake.rs:119-133 | Answers again with the pending SNonce; result and new state equal the operation of Supplicant |
| ClientObject.Client.InstallGtk | src/client/group_keys.rs:50-58 | Installs a different GTK with its window, and leaves an equal one and its window alone; result and new state equal the operation of Supplicant |
| ClientObject.Client.InstallIgtk | src/client/group_keys.rs:60-69 | The same for the IGTK and its IPN window; result and new state equal the operation of Supplicant |
| ClientObject.Client.InstallGroupKeys | src/client/group_keys.rs:17-84 | All checks and installations of delivered group keys; refusal changes nothing; result and new state equal the operation of Supplicant |
| ClientObject.Client.CommitPendingPtk | src/client/handshake.rs:288-322 | Replaces the installed keys by the candidate's; packet number and windows restart exactly when the temporal key differs; result and new state equal the operation of Supplicant |
| ClientObject.Client.SendEapol4 | src/client/handshake.rs:156-286 | Message 3: candidate or retransmission, replay counter, unwrap, OCI, group keys, commit and message 4, in that order; result and new state equal the operation of Supplicant |
| ClientObject.Client.HandleGroupRekey | src/client/group_keys.rs:88-146 | Group message 1: MIC, counter, install on first delivery only, acknowledge always; result and new state equal the operation of Supplicant |
| ClientObject.Client.HandleEapolKey | src/client/receive.rs:10-85 | The dispatch of EAPOL-Key frames by transport, connection state and handshake phase; result and new state equal the operation of Supplicant |
| ClientObject.Client.ReceiveData | src/client/receive.rs:343-437 | Key selection, replay windows and delivery of protected downlink frames; result and new state equal the operation of Supplicant |
| ClientObject.Client.ResetSessionKeys | src/client/session.rs:74-109 | Clears every key, window and counter of the session; result and new state equal the operation of Supplicant |
| ClientObject.Client.Disconnect | src/client/sae_auth.rs:6-13 | Leaves the idle state with no session, default GTK key id and no SAE PMK; result and new state equal the operation of Supplicant |
| ClientObject.Client.Handle | src/client/receive.rs:10-85 | Every event, by the method of its kind; result and new state equal the operation of Supplicant |
| ClientObject.Client.Run | src/client/receive.rs:343-437 | Over any sequence of events: sent and accepted numbers of the object's log strictly increase from the start with fresh nonces, and every counter climbs while its key stays; result and new state equal the operation of Supplicant |
| ClientObject.Client.HandleRobustMgmt | src/client/management.rs:10-124 | Action, deauthentication and disassociation with and without PMF, with PN and IPN replay checks; result and new state equal the operation of Supplicant |
| AuthenticatorRuns.NoPacketNumberTwice | src/ap/handshake.rs:154-205 | With fresh ANonces, over every run and for every station: the packet numbers sent under one TK strictly increase, and so do the numbers accepted on each counter of its keys; reassociation, re-authentication, changed SNonces and teardown with a held ANonce included |
| AuthenticatorRuns.AnonceInstallsOnce | src/ap/association.rs:428-463 | In every reachable state, a message 4 that installs a key uses an ANonce with which this station never had a key installed |
| AuthenticatorRuns.CommitKeeps | src/ap/handshake.rs:154-206 | A retained candidate's key was never installed before, so the packet numbers restart only with a new key and the invariant is kept |
| AuthenticatorRuns.RunKeeps | src/ap/receive.rs:189-306 | Every reachable state satisfies the invariant on candidates, held ANonces, installed keys and packet numbers, for every station |
| AuthenticatorRuns.HandleElsewhere | src/ap/handshake.rs:6-34 | An event about one station leaves the record, the held ANonce and the traffic of every other station as they were |
| AuthenticatorRuns.NoPacketNumberTwiceAnywhere | src/ap/station.rs:310-317 | Without MLD identities, over the whole transmission log of the access point the packet numbers under one temporal key strictly increase and go to one station |
| AuthenticatorIdentities.NoPacketNumberTwiceWithMlds | src/ap/station.rs:310-317 | The same with MLD identities, over every run in which no event claims one address for two stations |
| AuthenticatorRuns.NoGroupPacketNumberTwice | src/ap/group_keys.rs:105-130 | With fresh GTKs, over every run the packet numbers of group frames under one GTK strictly increase; key and counter move together |
| AuthenticatorRuns.SelectedIsRetained | src/ap/handshake.rs:118-152 | Message 4 selects only among the station's retained candidates |
| AuthenticatorWindows.NumbersClimb | src/ap/data.rs:40-63 | From any state and over any events while a station's key stays installed, random nonces fresh or not: the numbers accepted on each of its counters, and those sent under the key, strictly increase, all above the starting level and none above the final one |
| AuthenticatorWindows.CommitLowersNone | src/ap/handshake.rs:154-191 | Committing a candidate with the temporal key in use keeps its packet number and both windows; any other restarts them |
| AuthenticatorWindows.HandleSound | src/ap/management.rs:216-260 | Every event accepts and sends only numbers above the level of the stream and lowers no level of a key that stays installed |
| PmfSession.ForgeriesLeaveSession | src/ap/management.rs:17-74 | Under any sequence of events without proof of a settled PMF station's keys, maintenance included, the station stays associated with the same keys and windows, its packet number never falls and an outstanding SA Query stays as it was, throughout the sequence if and only if no maintenance finds the query past its time |
| PmfSession.QueryEndsOnlyBy | src/ap/management.rs:119-214 | An outstanding SA Query of a settled session ends if and only if the event is the matching protected response, a protected deauthentication, its timeout, or the host's teardown |
| PmfSession.ContestedIsChallenged | src/ap/management.rs:29-76 | A contested session is challenged, with the identifier of the first challenge while one is outstanding |
| PmfSession.FramesUndisturbed | src/ap/management.rs:216-261 | An EAPOL, data or management frame made without the station's keys leaves the whole access-point state unchanged |
| AccessPointObject.AccessPoint.NextEapolReplay | src/ap/configuration.rs:210-216 | Advances the replay counter by one; result and new state equal the operation of Authenticator |
| AccessPointObject.AccessPoint.NextClientPn | src/ap/station.rs:310-317 | Takes the station's next packet number while there is one; result and new state equal the operation of Authenticator |
| AccessPointObject.AccessPoint.GroupFrame | src/ap/data.rs:114-131 | Seals a group frame under the GTK with the next group number; result and new state equal the operation of Authenticator |
| AccessPointObject.AccessPoint.ChallengeStation | src/ap/management.rs:29-76 | SA Query: first identifier and start are kept, the request is sealed to the station; result and new state equal the operation of Authenticator |
| AccessPointObject.AccessPoint.HandleAuth | src/ap/receive.rs:166-324 | Open authentication: PMF challenge, backoff, mid-handshake exception and session reset; result and new state equal the operation of Authenticator |
| AccessPointObject.AccessPoint.FindPmksa | src/ap/association.rs:219-245 | The loop over the request's PMKIDs finds the first unexpired cached PMKSA for the identity; result and new state equal the operation of Authenticator |
| AccessPointObject.AccessPoint.BeginHandshake | src/ap/association.rs:417-518 | ANonce of the running handshake, else the held one, else a fresh one; message 1 cached and held; result and new state equal the operation of Authenticator |
| AccessPointObject.AccessPoint.Refused | src/ap/association.rs:40-113 | The refusals of an association request, in order, with their status codes; result and new state equal the operation of Authenticator |
| AccessPointObject.AccessPoint.HandleAssoc | src/ap/association.rs:6-518 | The whole policy: reload, PMF comeback, refusals, downgrade gates, awaiting-message-4 guard, message 1; result and new state equal the operation of Authenticator |
| AccessPointObject.AccessPoint.FindCandidate | src/ap/handshake.rs:118-152 | The loop over retained candidates finds the first whose counter, MIC and MLD address match; result and new state equal the operation of Authenticator |
| AccessPointObject.AccessPoint.FindPmk | src/ap/handshake.rs:321-351 | The loop over credentials finds the first whose PTK verifies message 2; result and new state equal the operation of Authenticator |
| AccessPointObject.AccessPoint.RetainCandidate | src/ap/handshake.rs:433-454 | Adds a candidate unless an equal one is retained, dropping the oldest of eight; result and new state equal the operation of Authenticator |
| AccessPointObject.AccessPoint.HandleEapol | src/ap/handshake.rs:6-584 | Group message 2, message 4 and message 2, in that order; result and new state equal the operation of Authenticator |
| AccessPointObject.AccessPoint.HandleData | src/ap/data.rs:6-80 | Uplink data: key id, association, per-TID window, source check; result and new state equal the operation of Authenticator |
| AccessPointObject.AccessPoint.HandleDeauth | src/ap/management.rs:78-115 | Deauthentication and disassociation with and without PMF; result and new state equal the operation of Authenticator |
| AccessPointObject.AccessPoint.HandleAction | src/ap/management.rs:119-214 | Protected SA Query requests and responses; result and new state equal the operation of Authenticator |
| AccessPointObject.AccessPoint.RekeyAll | src/ap/group_keys.rs:149-199 | The loop sends group message 1 to every associated station with its own counter; result and new state equal the operation of Authenticator |
| AccessPointObject.AccessPoint.RekeyGtk | src/ap/group_keys.rs:105-130 | New GTK and IGTK, toggled key ids, group number back to one, then message 1 to all; result and new state equal the operation of Authenticator |
| AccessPointObject.AccessPoint.NoteAssocNotAcked | src/ap/lifecycle.rs:37-60 | An unacknowledged association response cancels the pending message of an unassociated station; result and new state equal the operation of Authenticator |
| AccessPointObject.AccessPoint.SaeCommitDone | src/ap/sae_auth.rs:655-676 | A finished commit gives the station, created if need be, the PMK and the peer's MLD address; result and new state equal the operation of Authenticator |
| AccessPointObject.AccessPoint.SaeConfirmDone | src/ap/sae_auth.rs:684-746 | A verified confirm completes the exchange and caches the PMKSA; result and new state equal the operation of Authenticator |
| AccessPointObject.AccessPoint.RetransmitPending | src/ap/lifecycle.rs:117-134 | Sends the pending message again, if there is one; result and new state equal the operation of Authenticator |
| AccessPointObject.AccessPoint.Drop | src/ap/lifecycle.rs:424-441 | Removes the station; result and new state equal the operation of Authenticator |
| AccessPointObject.AccessPoint.Handle | src/ap/receive.rs:166-324 | Every event, by the method of its kind; result and new state equal the operation of Authenticator |
| AccessPointObject.AccessPoint.Run | src/ap/lifecycle.rs:62-156 | Over any sequence of events: sent, accepted and group numbers of the object's log strictly increase from the start with fresh nonces, and every stream of every station climbs while its key stays; result and new state equal the operation of Authenticator |
| AccessPointObject.AccessPoint.RunMaintenance | src/ap/lifecycle.rs:191-256 | Expired ANonces are dropped and stations with an expired SA Query removed; result and new state equal the operation of Authenticator |
| KeyWrap.UnwrapIffWrapped | src/auth/crypto.rs:407-489 | For any block permutation: unwrapping gives p if and only if p is a positive multiple of eight octets whose wrapping is the input |
| KeyWrap.WrapIsShiftRegister | src/auth/crypto.rs:407-441 | Wrapping equals 6n steps of the shift register of section 2.2.1 of RFC 3394 |
| KeyWrap.UnwrapIsShiftRegister | src/auth/crypto.rs:443-489 | Unwrapping equals 6n steps back and the check of the initial value, section 2.2.2 of RFC 3394 |
| KeyWrap.AesWrap | src/auth/crypto.rs:407-441 | The in-place indexed loops compute the wrapping |
| KeyWrap.AesUnwrap | src/auth/crypto.rs:443-489 | The in-place indexed loops compute the unwrapping, malformed lengths refused |
| KeyWrap.UnwrapInPlace | src/auth/crypto.rs:455-478 | One backward pass over the array is one backward pass of the specification |
| KeyWrap.PassStartIsProduct | src/auth/crypto.rs:418-434 | The step counter at the start of pass j over n semiblocks is n times j |
| KeyData.FindVendorKde | src/group_keys/kde.rs:3-19 | The offset loop computes the recursive walk |
| KeyData.WalkFindsFirst | src/group_keys/kde.rs:3-19 | Over any encoded element list with any padding the walk finds exactly the first KDE of the type |
| KeyData.PadKeyData | src/auth/crypto.rs:492-503 | Pads with one 0xdd and zeros to a multiple of eight, and not at all when already there |
| KeyData.LegacyReadsBack | src/auth/eapol.rs:391-412 | The key data of message 3 reads back as exactly the keys sent, for every RSN prefix without KDEs and every padding length |
| KeyData.OciWalkAgrees | src/auth/rsn.rs:380-395 | The OCI reader's separate walk agrees with the KDE walk when the first OCI element is long enough |
| KeyDelivery.LegacyKeysArrive | src/client/group_keys.rs:17-84 | Pad, wrap, unwrap, walk and install: an empty session ends up with the GTK, IGTK, BIGTK, key ids, OCI, RSC and IPN that were sent |
| KeyDelivery.MloKeysArrive | src/auth/eapol.rs:539-611 | The same for both Multi-Link layouts: message 3 with its per-link KDEs, and group-key message 1 without MAC address and link KDEs |
| KeyDelivery.MloReadsBack | src/group_keys/handshake.rs:109-164 | The Multi-Link key data of message 3 and of group-key message 1 reads back as sent, the packet number coming from the KDE and not the frame |
| KeyDelivery.DeliveredIsHeld | src/client/group_keys.rs:17-84 | Installing key data that reads back is refused exactly when PMF lacks an IGTK; otherwise the keys and windows held are those sent |
| KeyDelivery.AppendForLinks | src/auth/eapol.rs:562-582 | The loop over links appends one KDE per link, in order |
| Ccm.OpensExactly | src/auth/crypto.rs:306-347 | CCM decryption accepts exactly the pairs encryption produces, with the text they came from |
| Ccm.CtrEncrypt | src/auth/crypto.rs:231-241 | The loop over chunks combines octet j with octet j of the keystream |
| Ccm.CtrTwice | src/auth/crypto.rs:231-241 | Counter mode is its own inverse for every length |
| Ccm.CounterBlocksDistinct | src/auth/crypto.rs:216-227 | The first 65536 counter blocks are equal only for equal nonce and position: no carry reaches the nonce |
| Ccm.CbcMac | src/auth/crypto.rs:245-294 | The block building and chaining loops compute the tag; unusable tag lengths give none |
| Ccm.FormatDetermines | src/auth/crypto.rs:257-280 | For lengths that fit their fields, equal authenticated blocks mean equal text, associated data, nonce and tag length |
| DataFrames.PnReadsBackIff | src/structures/common.rs:173-186 | The receiver reads the packet number that was sent if and only if octets 2 and 5 and octets 3 and 4 are equal |
| DataFrames.SmallPnSurvives | src/frames/data.rs:71-83 | Every packet number below 65536 reads back |
| DataFrames.FirstLostPn | src/structures/common.rs:173-186 | Packet number 65536 does not read back |
| DataFrames.NoncesDetermine | src/frames/data.rs:27-41 | CCM and GCM nonces repeat only if transmitter and packet number do, and for CCM the priority |
| DataFrames.SealedOpens | src/frames/data.rs:85-151 | For each of the four ciphers a sealed payload opens in the same context, with a tag of the cipher's length |
| DataFrames.HeaderParses | src/structures/common.rs:66-114 | The parser recovers type, flags, addresses, sequence control, QoS control and body of a built header |
| DataFrames.ContextsAgree | src/frames/data.rs:319-352 | The receiver's nonce and associated data are the sender's, but for the packet number it reads |
| DataFrames.BuiltDecapsulates | src/frames/data.rs:319-376 | Decapsulating a built frame gives the Ethernet frame when the packet number survives, and nothing when opening under the misread number fails |
| DataPlane.TranslationsAgree | src/ap/mlo.rs:313-345 | Uplink and downlink, for every third address, the access point's and the client's security addresses are the same, legacy or MLO |
| DataPlane.UplinkArrives | src/ap/data.rs:6-80 | An in-order uplink frame moves the window and is passed on with the client's link address as source, or changes nothing when its number does not survive |
| DataPlane.UplinkDeliversIff | src/client/data.rs:7-77 | It is passed on if and only if its packet number survives and no guest isolation applies |
| DataPlane.DownlinkArrives | src/ap/data.rs:87-171 | An in-order downlink frame arrives octet for octet, on the controlled port if it is EAPOL, or is ignored when its number does not survive |
| DataPlane.GroupArrives | src/client/receive.rs:343-437 | The same for group frames and every client holding the group key |
| DataPlane.NothingLost | src/client/receive.rs:343-437 | Over any interleaving of traffic in both directions while both counters stay below 65536, nothing is lost, changed, reordered or duplicated |
| DataPlane.ClientData.Encrypt | src/client/data.rs:7-77 | Wire frame and new counters equal the specification, every refusal included |
| DataPlane.ClientData.Receive | src/client/receive.rs:343-437 | Outcome and windows equal the specification |
| DataPlane.ApData.HandleUplink | src/ap/data.rs:6-80 | Outcome and station table equal the specification |
| DataPlane.ApData.Deliver | src/ap/data.rs:87-171 | Wire frame, packet numbers and sequence counter equal the specification |
| Bip.VerifiesIffProtected | src/group_keys/management.rs:129-150 | Verification accepts exactly what protection produces for the key id, IPN and body in front of the element |
| Bip.ProtectedVerifies | src/group_keys/management.rs:102-162 | A protected body verifies and its IPN reads back |
| Bip.BipProtect | src/group_keys/management.rs:102-126 | Filling the element in and writing the MIC over its zeros computes the protected body |
| Bip.BipVerify | src/group_keys/management.rs:129-150 | Clearing the MIC and comparing computes the verification |
| Bip.IncIpn | src/ap/mod.rs:118-125 | The in-place carry computes the increment |
| Bip.IncrementAddsOne | src/ap/mod.rs:118-125 | The octets, read little-endian, grow by one, or wrap to zero at their maximum |
| EapolTimers.RunKeeps | src/ap/lifecycle.rs:103-189 | In every reachable state each station awaiting an answer has a heap entry of its generation at its deadline, and no retry count exceeds the limit |
| EapolTimers.TickLeavesNoneDue | src/ap/lifecycle.rs:103-156 | After a tick no station is waiting past its deadline |
| EapolTimers.SilentIsAccounted | src/ap/lifecycle.rs:103-156 | A silent station that is not re-armed is retransmitted to at most its remaining retries, and if removed, after exactly that many and with one deauthentication |
| EapolTimers.SilentIsDropped | src/ap/lifecycle.rs:103-156 | Over any events of other stations, polls at any times that do not go back, and link acknowledgements of its own, a station that never answers is gone once the timeouts it has seen outnumber its remaining retries; unless it was removed otherwise, after exactly those retransmissions and one deauthentication |
| EapolTimers.SilentIsGoneBy | src/ap/lifecycle.rs:103-156 | With polls at most a gap apart, such a station is gone by its deadline plus its remaining retries, each a timeout and a gap long |
| EapolTimers.LateTickActs | src/ap/lifecycle.rs:103-156 | A tick at or after the deadline retransmits with a new deadline or removes the station |
| EapolTimers.EapolTimers.ArmEapolTimer | src/ap/lifecycle.rs:167-183 | A new generation and, if a message is pending, a heap entry at its deadline |
| EapolTimers.EapolTimers.NoteEapolAcked | src/ap/lifecycle.rs:9-21 | A link acknowledgement restarts the wait only for message 1 |
| EapolTimers.EapolTimers.DrainDeadlines | src/ap/lifecycle.rs:103-156 | The tick's loop terminates and computes the drain |
| EapolTimers.EapolTimers.FireFirst | src/ap/lifecycle.rs:107-154 | One popped entry: stale, retransmit, or drop |
| RetryTimers.PendingIsArmed | src/ap/lifecycle.rs:167-189 | In every reachable state of the authenticator with its timers, a station has a message pending if and only if its timer waits; then its deadline is in the heap under its current generation and its retries are within the limit |
| RetryTimers.HandleHonest | src/ap/handshake.rs:552-568 | No event about a station makes a message pending without sending it, and nothing else changes what a station waits for except by ending the wait |
| RetryTimers.RunProjects | src/ap/lifecycle.rs:103-156 | The authenticator's part of a run with timers is a run of the authenticator alone, each retransmission and disconnection of a tick being one of its events |
| RetryTimers.TimersProject | src/ap/lifecycle.rs:167-189 | The timers' part of such a run is a run of the timers alone, each handler being a few of their events |
| RetryTimers.TickActs | src/ap/lifecycle.rs:103-156 | A tick retransmits to and disconnects only stations with a message pending at that moment, and leaves none of them overdue |
| RetryTimers.SilentIsDisconnected | src/ap/lifecycle.rs:117-154 | Over any run of the authenticator with its timers in which a station leaves its pending message unanswered, whatever the others do and whatever data, management frames or acknowledgements it sends, it is out of the table once its timeouts outnumber its remaining retries; group rekeys that pass it by are included |
| RetryTimers.SilentIsGoneBy | src/ap/lifecycle.rs:103-156 | With polls at most a gap apart it is out of the table by its deadline plus its remaining retries, each a timeout and a gap long |
| Maintenance.HandleKeepsIff | src/ap/lifecycle.rs:191-256 | An event keeps the lazy deadline true if and only if it is not an open authentication that resets an associated station with an incomplete SAE exchange whose expiry the deadline does not cover |
| Maintenance.TickLeavesNoneExpired | src/ap/lifecycle.rs:74-83 | After a tick under a true deadline none of the five classes holds anything expired |
| Maintenance.RunKeeps | src/ap/lifecycle.rs:158-165 | Over every run without that corner the lazy deadline never exceeds any expiry |
| Maintenance.CornerIsReachable | src/ap/receive.rs:245-306 | A concrete run reaches the corner: an expired exchange outlives every later tick |
| Maintenance.NextIsEarliest | src/ap/lifecycle.rs:230-255 | The running minimum over the tables is the earliest expiry after now |
| Maintenance.Tables.RunDeadlineMaintenance | src/ap/lifecycle.rs:191-256 | The sweeps and the rescheduling by loops compute the scan |
| LazyMaintenance.SkippedTickIsIdle | src/ap/lifecycle.rs:74-83 | In the authenticator with its lazy deadline, a tick before the deadline would have found no ANonce and no SA Query expired and given up no station but inactive ones whose SAE exchange is complete: lazy maintenance does what maintenance at every tick does |
| LazyMaintenance.RunKeeps | src/ap/lifecycle.rs:158-165 | Over every run of the authenticator's handlers without the corner, the tables behind the deadline are the authenticator's and none of their expiries comes before it |
| LazyMaintenance.TickLeavesNoneExpired | src/ap/lifecycle.rs:191-256 | After any tick the authenticator holds no expired ANonce, no SA Query past its time and no expired incomplete exchange of an unassociated station |
| LazyMaintenance.ScanIsEvents | src/ap/lifecycle.rs:191-228 | A scan is the authenticator's maintenance followed by the teardown of the inactive stations, in any order |
| SaeAdmission.AdmissionBound | src/ap/sae_auth.rs:243-258 | In every reachable state at most 64 distinct addresses have an SAE exchange incomplete or queued, and the double count is at most twice that |
| SaeAdmission.NothingQueuedIsLost | src/ap/sae_auth.rs:425-459 | Over every run, while the worker runs each queued commit has its job on the way under the identifier its result is recognized by and the channel stays within its bound; without a worker nothing is queued |
| SaeAdmission.StoppedIsNoticed | src/ap/sae_auth.rs:543-553 | A worker that has stopped is given up by the next poll, after its last results, with everything queued |
| SaeAdmission.EarlyConfirmApplies | src/ap/sae_auth.rs:375-387 | A confirm that overtakes its commit has exactly the effect it would have had after it |
| SaeAdmission.SaeWorker.FinishSaeConfirm | src/ap/sae_auth.rs:684-726 | A verified confirm completes the station's exchange; any other changes nothing |
| SaeAdmission.StaleResultIgnored | src/ap/sae_auth.rs:543-569 | A result whose commit expired or was replaced changes nothing but the channel |
| SaeAdmission.HandleKeepsBound | src/ap/sae_auth.rs:187-282 | No commit, completion, timeout or queue-full rejection breaks the bound on distinct addresses |
| SaeAdmission.SaeWorker.HandleSaeCommit | src/ap/sae_auth.rs:187-373 | Coalescing, cached answer, cap, token, in-flight and credential checks in the program's order |
| SaeAdmission.SaeWorker.QueueSaeCommit | src/ap/sae_auth.rs:425-459 | Queueing, a full queue, a worker that has stopped, and computing at once without one |
| SaeAdmission.SaeWorker.PollSaeWork | src/ap/sae_auth.rs:543-569 | The loop takes every result, finishing those that still match |
| SaeAdmission.SaeWorker.FinishSaeCommit | src/ap/sae_auth.rs:571-682 | A finished commit becomes the station's incomplete exchange; a failed one is recorded |
| AntiClogging.SaeCommitToken | src/ap/sae_auth.rs:6-55 | The loop over trailing elements computes the stripped commit and its token |
| AntiClogging.StripTakesTokens | src/ap/sae_auth.rs:28-54 | For any element list: at most one token is taken out and everything else stays in order; two are refused |
| AntiClogging.ValidIffIssued | src/ap/sae_auth.rs:85-104 | A token is valid if and only if it is the one issued for this station, method and commit no more than a lifetime ago |
| AntiClogging.TokenCarriesTime | src/ap/sae_auth.rs:57-79 | The issue time reads back from the token |
| AntiClogging.TokenRoundTrip | src/client/sae_auth.rs:62-108 | For both placements and with or without MLD element, the token issued for the first commit comes back on the same canonical commit and is valid exactly until its lifetime ends |
| RateLimit.AtMostTwoBursts | src/ap/runtime.rs:102-156 | With a monotone clock each source is allowed at most two bursts of one kind in any half-open window, eviction and return included |
| RateLimit.TableBounded | src/ap/runtime.rs:115-131 | The table never exceeds its bound, whatever the clock does |
| RateLimit.Limiter.AllowRequest | src/ap/runtime.rs:133-156 | Decision and table equal the specification for both kinds |
| RateLimit.Limiter.RequestRateEntry | src/ap/runtime.rs:115-131 | An entry is found, or inserted after a sweep of a full table, or refused |
| FailureLog.Log.RecordFailure | src/failures.rs:74-100 | Over any history the running count returned is the occurrences since the key last entered the log, and the log keeps describing the history |
| FailureLog.Log.Records | src/failures.rs:123-127 | The keys listed are exactly the most recently seen distinct ones up to capacity, ordered by last occurrence, each with its count since it last entered |
| FailureLog.SortedIsRecent | src/failures.rs:123-127 | Sorting a log that describes a history gives exactly its most recent keys |
| FailureLog.RecentSnoc | src/failures.rs:74-100 | One more occurrence moves its key to the end and evicts the least recent when full |
| FailureLog.OrderIsUnique | src/failures.rs:123-127 | There is only one order of a set of keys by last occurrence |
| FailureLog.Log.LeastRecent | src/failures.rs:86-90 | The victim is a record with the least last occurrence |
| MultiLink.DefragmentsIff | src/mlo/elements.rs:21-49 | Defragmentation inverts fragmentation for every body and whatever follows, but for a body of exactly 255 octets in front of a Fragment element |
| MultiLink.FragmentedElement | src/mlo/elements.rs:21-49 | The loop computes the fragments, with the closing empty one for exact multiples |
| MultiLink.ParsesBackIff | src/mlo/elements.rs:409-479 | The strict parser returns exactly the list built if and only if it fits in one element; otherwise the first k profiles if and only if those end exactly at the end of the element, and nothing if none do |
| MultiLink.ProfilesLostSilently | src/mlo/elements.rs:409-479 | The silent case occurs: behind a profile that takes exactly the room of one element every other profile is lost, and the parser reports no error |
| MultiLink.ProfileReadsIff | src/mlo/elements.rs:231-265 | A built profile reads back as itself if and only if its elements are well formed, with or without change count |
| MultiLink.BuiltIesValid | src/mlo/elements.rs:346-371 | Ordinary elements, alone or closed by a built Non-Inheritance element, pass the strict validation |
| MultiLink.MissingIff | src/mlo/elements.rs:346-357 | An id is listed as not inherited if and only if the reporting link has it and the reported one has not |
| MultiLink.ValidateProfileIes | src/mlo/elements.rs:485-514 | The position loop computes the validation |
| MultiLink.ParseLinkProfiles | src/mlo/elements.rs:409-479 | The element loop computes the reading |
| MultiLink.ReadLinkInfoLoop | src/mlo/elements.rs:425-468 | The subelement loop computes the reading of the Link Info field |

## Left out

- The insides of AES, SHA, HMAC, CMAC, PBKDF2, AES-GCM and the elliptic-curve arithmetic of SAE and OWE; the PRF and KDF loops, which are one injective symbolic function here.
- Frames received on the kernel's management path, nl80211, key installation in a driver, TAP and monitor transports, per-station network interfaces' sequence readback.
- Beacons, probe responses, channel and operating-class tables, RSN element parsing and cipher negotiation: their outcomes are parameters of the association event; RSN matching of message 2 and OCI class checks are predicates or sets.
- The replay counter's wrap past 2^64 and the wrap of heap generations and job identifiers: counters are unbounded naturals, so runs are assumed shorter.
- The requests that the rate limiter refuses never reach `Authenticator`; `RateLimit` models the refusal itself.
- Clocks of the handshake models: the client's liveness timeouts, the retry timer and maintenance are events that may come at any time; `EapolTimers` and `Maintenance` model when they come, and `RetryTimers` and `LazyMaintenance` tie them to the authenticator's handlers. `SaeAdmission` and `DataPlane` keep the fields of a station they need, and are not tied to it in the same way; nor are the PMKSA and queued-commit tables of `Maintenance`.
- The access point's liveness when a group rekey overlaps a four-way handshake: the rekey overwrites the pending message, and message 3 cached before it carries the old GTK. Only safety is claimed there.
- AuthenticatorRuns.NoPacketNumberTwiceAnywhere: only without MLD identities, because the code does not keep MLD addresses unique across stations; per station the property holds with them too, and `AuthenticatorIdentities.NoPacketNumberTwiceWithMlds` proves it for the whole log where no address is claimed for two stations.
- DataPlane.UplinkDeliversIff: that a frame with a misread packet number fails authentication is assumed of that frame (`Authentic`), because a tag of eight octets can collide; that it is delivered when its number survives needs no such assumption.
- MultiLink.BuiltIesValid: lists of element ids longer than one Non-Inheritance element holds, whose length octets the builder truncates.
- AccessPointObject.AccessPoint.HandleEapol: driver notifications, failure records and the steering request that may follow message 3; retry clocks are in `EapolTimers`.
- Stations are values in a map, which the object reassigns: that two parts of the program never hold a station record at once is Rust's borrow rule and is not modelled.
- The size bound of the PMKSA cache, group deauthentication frames, roaming and BSS-transition frames, WMM negotiation, the credential file and its reload thread.
- Zeroization and constant-time comparison, which nothing in the model can observe.
- Test hooks and the paused message 3.
