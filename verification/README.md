# Verified kernels of the Paparazzi airborne code and of the swarm ground station

This project models the stateful, hardware-free kernels of the repository in Dafny and proves what
each of them is for. One file models one source file; code that updates fields or arrays in place is
a class or a method over an array, proved against a function whose properties are then proved as
lemmas.

| file | what it models |
|---|---|
| Spistream.dfy, SpistreamLink.dfy | packages over the SPI bus: cutting messages, the transmit ring, the receiver; two endpoints joined |
| AltVfilter.dfy, LinearAlgebra3.dfy | the vertical Kalman filter, over the reals, and the matrix algebra it needs |
| RotationFloat.dfy, RotationOfMatrix.dfy | quaternions and rotation matrices, over the reals, both ways |
| IntSqrt.dfy, RotationInt.dfy | the integer square root; fixed-point composition and integration of quaternions |
| StateCache.dfy, FloatPlane.dfy, PlaneWorld.dfy | the lazy cache of position representations; the float tangent plane it derives from the integer one; both with the conversions of the code |
| SpiCrc.dfy | the CRC-8 sealed SPI exchange |
| InterMcu.dfy, Fletcher.dfy | the framed link between the two processors; the checksum pair it shares with the next |
| UdpTransport.dfy, OnboardLogger.dfy | the batching telemetry writer and the logger that splits its datagrams |
| MedianFilter.dfy | the sliding median |
| GeodeticInt.dfy | fixed-point conversions between earth-centred and local coordinates |
| SwarmGcs.dfy | the ground station's command threads, its report handler and their locks |
| Bytes.dfy | machine-integer ranges |

`dafny verify dfyconfig.toml` checks the whole project.

Where the code and its comments disagree, the code is modelled:

- In `sw/airborne/alt_vfilter.c` the comment gives F a last entry -dt^2/2 in its first row, B an entry
  dt^2/2, R as 0.1 and Q as 0.01, 0.01, 0.001. The code has 0 for the first two, R as 2 and Q as
  0.001, 0.001, 0.00001.
- In `sw/airborne/fms/fms_autopilot_msg.h` the example of a 22-byte message in 8-byte packages ends
  with -5; the code gives -2, which is what the length of 22 needs.
- `sw/airborne/lisa/lisa_spistream.h` says that a message is rejected when the transmit buffer is full.
  The code asks for one free slot, whatever the length of the message.
- `sw/airborne/fms/onboard_logger.c` prints one byte of the timestamp where its comment promises it.

What the code does not meet is stated with the exact condition under which it does:

- The spistream room check (`Spistream.EnqueueIntactIff`, with `Spistream.RoomCheckAcceptsTooMuch`).
- The float tangent plane, which `stateSetLocalOrigin_i` makes 64 times too large: the float conversions
  between ECEF and local coordinates, either way, agree with those of the integer plane at its origin and
  nowhere else (`FloatPlane.AgreeIffAtOriginAnywhere`, `FloatPlane.AgreeBackIffAtOriginAnywhere`, with
  `FloatPlane.EnuIs64Times` and `FloatPlane.EcefIs64Times`).
- Getters of the state cache that find no source (`StateCache.GetterDenotesIff`, with
  `StateCache.SourcedIff` and `StateCache.KindsAreComplete`): those that go through that plane
  (`StateCache.SkewedReads`, `StateCache.ForeignReads`, failing runs `PlaneWorld.FloatPlaneInput` and
  `PlaneWorld.FloatPlaneBackInput`), that take
  NED coordinates through a tangent plane although none is set (`StateCache.ForeignReads`, failing run
  `PlaneWorld.NedBeforeLlaInput`), that take a UTM position from an origin in another zone, among them all
  made from LLA before a position was set in UTM (`StateCache.OtherZoneReads`, failing run
  `PlaneWorld.ZoneInput`), that take integer LLA in centimetres for Q8 metres (`StateCache.WrongUnitReads`,
  `GeodeticInt.PointIsPosIff`), that look at nothing marked (`StateCache.BlankReads`), and the float LLA
  getter, which converts its own field where the integer LLA bit is set (`StateCache.LlaFloatRightIff`).
- The float NED getter, which overwrites a valid ENU value in a UTM frame
  (`StateCache.RewritingGetterExtendsIff`).
- Two flipped bits 127 apart under the CRC-8, two cancelling bytes under the inter-MCU sums, and the
  fly-by-wire message that declares one byte less than it sends (`SpiCrc.TwoBitsMissedIff`,
  `InterMcu.TwoChangesAcceptedIff`, `InterMcu.ShortDeclarationAcceptedIff`).
- The logger, which takes the UDP length for the length of the payload
  (`OnboardLogger.DatagramSplits`, `OnboardLogger.LoggedRun`).
- The kill handler's first pass, which leaves out the last quad (`SwarmGcs.KillPassSkipsTheLast`,
  `SwarmGcs.LastQuadKilledInWaitOnly`).
- The condition of the execute ack, which is always true (`SwarmGcs.ExecuteAckIgnoresState`).

Inputs the model takes as parameters: bytes from serial lines and the SPI bus, the four bytes of
MSG_TIMESTAMP, the aircraft's id, the root that sqrtf returns (known by its defining equation) and the
constant M_SQRT2 (likewise), whether two seconds have passed on the ground station's clock, and the
values and times of the quads' reports.

## Model

| member | source | states |
|---|---|---|
| Spistream.PutAllStoresQueue | sw/airborne/lisa/lisa_spistream.h:200-235 | Storing packages at the insert index appends them to the queue that starts at the read index; where more than the ring holds are stored, a slot ends up with the latest package put in it. |
| Spistream.WrapKeepsShortQueues | sw/airborne/lisa/lisa_spistream.h:226-233 | While a queue fits the ring, wrapping loses nothing of it. |
| Spistream.PacketizeArePackages | sw/airborne/lisa/lisa_spistream.h:187-222 | Cutting a message gives full packages counting down, the last one carrying minus the padding, every byte of the message in its place and zeros behind it. |
| Spistream.PacketizeReceivable | sw/airborne/lisa/lisa_spistream.h:216-222 | Every package of a message of at most 704 bytes lands inside the 720-byte receive buffer. |
| Spistream.EnqueueIntactIff | sw/airborne/lisa/lisa_spistream.h:179-247 | An accepted message, of any length, joins any queue intact, behind what is there, exactly when its packages fit the free slots or each package with one 88 places behind it in the queue is a copy of that one. |
| Spistream.EnqueueIntactIffFits | sw/airborne/lisa/lisa_spistream.h:179-247 | So where no package of the new id is queued it is exactly when they fit. |
| Spistream.RoomCheckAcceptsTooMuch | sw/airborne/lisa/lisa_spistream.h:179-181 | The room check asks for one free slot, not for the message: a queue and a message it accepts although packages are overwritten. |
| Spistream.RxRead | sw/airborne/lisa/lisa_spistream.h:99-137 | Reading any package whose copy stays inside the buffer keeps the receiver's invariant. |
| Spistream.RxRun | sw/airborne/lisa/lisa_spistream.h:99-137 | So does reading any sequence of packages. |
| Spistream.RxRunConcat | sw/airborne/lisa/lisa_spistream.h:99-137 | Reading two streams one after the other is reading their concatenation. |
| Spistream.ReadInPlace | sw/airborne/lisa/lisa_spistream.h:107-137 | While a message is being received, its next package is copied to its own place, and only the last one ends the message and calls the handler. |
| Spistream.ReadNext | sw/airborne/lisa/lisa_spistream.h:107-137 | Reading the next package of a message keeps all its bytes received so far; the last one hands over exactly the message, padding cut off. |
| Spistream.DeliverMessage | sw/airborne/lisa/lisa_spistream.h:99-137 | From any idle receiver, whatever its buffer holds, the packages of a message deliver that message, once. |
| Spistream.Resynchronise | sw/airborne/lisa/lisa_spistream.h:113-136 | After any packages whose countdowns are between -32 and 22, as those of all messages of at most 704 bytes are, lost or mixed up in any way, one end-of-message package makes the receiver deliver the next message whole. |
| Spistream.Endpoint.constructor | sw/airborne/lisa/lisa_spistream.h:80-90 | A new endpoint has an empty queue and an idle receiver. |
| Spistream.Endpoint.EnqueueMsg | sw/airborne/lisa/lisa_spistream.h:171-250 | The call accepts as its flag says and, if it does, turns the ring into the queue with the message's packages appended, wrapped at the ring's size; the receive side is untouched. |
| Spistream.Endpoint.StorePackages | sw/airborne/lisa/lisa_spistream.h:203-235 | The byte loop leaves in the ring exactly the packages of the message, from the insert index on. |
| Spistream.Endpoint.StoreByte | sw/airborne/lisa/lisa_spistream.h:203-209 | One turn stores one more byte of the package in the making, a zero past the end of the data. |
| Spistream.Endpoint.FinishPackage | sw/airborne/lisa/lisa_spistream.h:210-234 | After its 32nd byte a package gets its countdown or negative padding and its id, and the insert index moves on around the ring. |
| Spistream.Endpoint.WritePkg | sw/airborne/lisa/lisa_spistream.h:143-164 | The call takes the oldest package, or an idle one, and calls the transmit handler at the end of a message. |
| Spistream.Endpoint.CopyPackage | sw/airborne/lisa/lisa_spistream.h:122-126 | The copy replaces exactly the bytes of one package in the receive buffer. |
| Spistream.Endpoint.ReadPkg | sw/airborne/lisa/lisa_spistream.h:99-137 | The call does to the receive buffer, the countdown and the handler what the receiver's state machine does. |
| SpistreamLink.Step | sw/airborne/lisa/lisa_spistream.h:99-250 | Every send allowed and every transfer, idle ones included, keeps both ends' invariants. |
| SpistreamLink.SendStep | sw/airborne/lisa/lisa_spistream.h:179-250 | A send is accepted as the room check says, and then queues exactly the packages of the message; a message of length 0 queues nothing. |
| SpistreamLink.SendKeepsEndToEnd | sw/airborne/lisa/lisa_spistream.h:171-250 | A send keeps the end-to-end property. |
| SpistreamLink.TransferKeepsEndToEnd | sw/airborne/lisa/lisa_spistream.h:99-164 | A transfer, of data or idle, keeps the end-to-end property. |
| SpistreamLink.EveryRunIsEndToEnd | sw/airborne/lisa/lisa_spistream.h:99-250 | In every run of sends and transfers the messages delivered, then the one partly received, then the packages queued, are exactly the messages sent, in order and byte for byte, with one transmit-handler call for each message delivered. |
| SpistreamLink.DrainDeliversAll | sw/airborne/lisa/lisa_spistream.h:143-164 | As many transfers as packages are queued deliver every message sent, and report each transmission. |
| SpistreamLink.IdsCycle | sw/airborne/lisa/lisa_spistream.h:182-186 | In every run, empty messages included, the n-th message accepted, counting from 1, uses up id (n-1) % 255 + 1, and the messages sent are those accepted that are not empty, under those ids. |
| SpistreamLink.SentOfData | sw/airborne/lisa/lisa_spistream.h:182-186 | Where none is empty, that is every message accepted, under ids that run from 1 to 255 again and again. |
| SpistreamLink.Bus.SendFromA | sw/airborne/lisa/lisa_spistream.h:263-268 | Sending at one end of the bus is a send on that direction and leaves the other as it was. |
| SpistreamLink.Bus.SendFromB | sw/airborne/lisa/lisa_spistream.h:263-268 | The same for the other end. |
| SpistreamLink.Bus.Exchange | sw/airborne/lisa/lisa_spistream.h:99-164 | One SPI exchange is one transfer in each direction. |
| AltVfilter.ResidualVarianceAtLeastR | sw/airborne/alt_vfilter.c:104-105 | With a sound covariance the divisor of the gain is at least R, whatever is observed. |
| AltVfilter.PredictKeepsSound | sw/airborne/alt_vfilter.c:59-85 | Prediction keeps the covariance symmetric and positive definite. |
| AltVfilter.PredictByEntries | sw/airborne/alt_vfilter.c:64-73 | The nine expressions of the prediction are F P F' for F with first row 1, dt, 0. |
| AltVfilter.QuadOfUpdate | sw/airborne/alt_vfilter.c:104-132 | An update lowers the variance in each direction by the squared covariance with what is observed over the residual variance. |
| AltVfilter.UpdateKeepsSymmetric | sw/airborne/alt_vfilter.c:114-132 | An update keeps the covariance symmetric. |
| AltVfilter.UpdateKeepsSound | sw/airborne/alt_vfilter.c:101-134 | An update keeps it positive definite, and its divisor is at least R. |
| AltVfilter.UpdateNeverLosesCertainty | sw/airborne/alt_vfilter.c:114-132 | An update raises the variance in no direction, and no diagonal entry. |
| AltVfilter.UpdateBeatsSensor | sw/airborne/alt_vfilter.c:101-134 | After it the observed quantity is more certain than the sensor alone would make it. |
| AltVfilter.QuadOfJoseph | sw/airborne/alt_vfilter.c:88-99 | The variance that any gain vector leaves in a direction. |
| AltVfilter.GainIsOptimal | sw/airborne/alt_vfilter.c:104-132 | For every gain vector the Joseph form of the covariance dominates the one computed, and that for the gain computed equals it as a quadratic form. |
| AltVfilter.PredictCarriesError | sw/airborne/alt_vfilter.c:59-83 | If the true state moves by the model, prediction carries the error of the state by the very matrix it carries the covariance by. |
| AltVfilter.ExactMeasurementShrinksError | sw/airborne/alt_vfilter.c:101-112 | A noise-free measurement shrinks the error in what it observes by exactly R over the residual variance. |
| AltVfilter.InitialSound | sw/airborne/alt_vfilter.c:28-39 | The initial covariance is symmetric and positive definite. |
| AltVfilter.Step | sw/airborne/alt_vfilter.c:59-181 | Each of the three calls keeps the covariance sound. |
| AltVfilter.Run | sw/airborne/alt_vfilter.c:59-181 | So does any sequence of them, in any order. |
| AltVfilter.Filter.constructor | sw/airborne/alt_vfilter.c:28-39 | The filter starts at the given state with the initial covariance. |
| AltVfilter.Filter.InitCovariance | sw/airborne/alt_vfilter.c:32-37 | The nested loops leave a diagonal matrix. |
| AltVfilter.Filter.AltVfPredict | sw/airborne/alt_vfilter.c:59-85 | The in-place prediction is the prediction of state and covariance. |
| AltVfilter.Filter.AltVfUpdateZ | sw/airborne/alt_vfilter.c:101-134 | The in-place update by an altitude is the Kalman update for the first state. |
| AltVfilter.Filter.AltVfUpdateVz | sw/airborne/alt_vfilter.c:150-181 | The in-place update by a vertical speed is that for the second. |
| RotationFloat.CompAssociative | sw/airborne/math/pprz_algebra_float.h:531-536 | Composition of quaternions is associative. |
| RotationFloat.NormMultiplicative | sw/airborne/math/pprz_algebra_float.h:531-536 | The norm of a composition is the product of the norms. |
| RotationFloat.CompInvIsCompConj | sw/airborne/math/pprz_algebra_float.h:548-553 | The inverse composition is composition with the conjugate. |
| RotationFloat.CompInvUndoesComp | sw/airborne/math/pprz_algebra_float.h:531-553 | Composition and inverse composition with a unit quaternion undo each other, both ways round. |
| RotationFloat.RotateIsSandwich | sw/airborne/math/pprz_algebra_float.h:609-632 | Rotating a vector, by the expanded form, is the product q* v q. |
| RotationFloat.SlowRotateCompose | sw/airborne/math/pprz_algebra_float.h:609-632 | Rotating by a composition is rotating twice. |
| RotationFloat.RotateKeepsLength | sw/airborne/math/pprz_algebra_float.h:634-655 | The fast rotation by a unit quaternion keeps the length of every vector. |
| RotationFloat.FastRotateIffUnit | sw/airborne/math/pprz_algebra_float.h:608-656 | The fast and the slow rotation agree on all vectors exactly for unit quaternions. |
| RotationFloat.FastMatrixIffUnit | sw/airborne/math/pprz_algebra_float.h:384-437 | The fast and the slow matrix agree exactly for unit quaternions. |
| RotationFloat.VmultIsMatrixProduct | sw/airborne/math/pprz_algebra_float.h:415-436 | The fast rotation is the product with the fast matrix, for every quaternion and vector. |
| RotationFloat.MatrixOfComp | sw/airborne/math/pprz_algebra_float.h:290-300 | The matrix of a composition is the composition of the matrices. |
| RotationFloat.MatrixOrthogonal | sw/airborne/math/pprz_algebra_float.h:415-436 | The matrix of a unit quaternion times its transpose is the identity, both ways. |
| RotationFloat.RadicandAtLeastOne | sw/airborne/math/pprz_algebra_float.h:706-739 | Whatever the matrix, the branch chosen takes the root of a number that is at least 1, so no branch divides by 0. |
| RotationFloat.RadicandOfUnit | sw/airborne/math/pprz_algebra_float.h:706-739 | For the matrix of a unit quaternion that number is four times the square of the component the branch computes by halving. |
| RotationFloat.QuatOfRMatRoundTrip | sw/airborne/math/pprz_algebra_float.h:704-748 | The quaternion of the matrix of a unit quaternion is that quaternion or its opposite, in all four branches. |
| RotationOfMatrix.RotationColumns | sw/airborne/math/pprz_algebra_float.h:704-748 | A matrix with orthonormal rows and determinant 1 has orthonormal columns, from which every branch works. |
| RotationOfMatrix.PivotOfBranch | sw/airborne/math/pprz_algebra_float.h:704-748 | In every branch the products of the components computed are those the matrix is made of. |
| RotationOfMatrix.RMatOfQuatOfRMat | sw/airborne/math/pprz_algebra_float.h:704-748 | For every rotation matrix the quaternion computed is a unit one and its matrix is the one given. |
| RotationOfMatrix.MatrixOfUnitIsRotation | sw/airborne/math/pprz_algebra_float.h:415-436 | The matrix of every unit quaternion is a rotation matrix. |
| IntSqrt.NewtonHalves | sw/airborne/math/pprz_algebra_int.h:988-992 | From above the root a turn never falls below it and at least halves the distance. |
| IntSqrt.NewtonDownByOne | sw/airborne/math/pprz_algebra_int.h:994-995 | A turn that lowers the value by one ends at the root, or one above it only where that value squared is one more than the number. |
| IntSqrt.NoOverflow | sw/airborne/math/pprz_algebra_int.h:984-994 | No turn overflows 32 bits, and the unsigned test for the end of the loop holds exactly when the value fell by at most one. |
| IntSqrt.Turn | sw/airborne/math/pprz_algebra_int.h:987-994 | Each turn either ends the loop near the root or brings the value closer than the iterations made require. |
| IntSqrt.Int32Sqrt | sw/airborne/math/pprz_algebra_int.h:980-997 | For every non-negative 32-bit integer the loop ends after at most 34 of its 40 turns with r*r <= n+1 and n < (r+1)*(r+1). |
| IntSqrt.NearRootIsRoot | sw/airborne/math/pprz_algebra_int.h:980-997 | That is the root rounded down, or one more exactly where n+1 is the square of that one more. |
| RotationInt.ExactRoundTrip | sw/airborne/math/pprz_algebra_int.h:571-584 | Before the shifts, composing and composing inversely multiplies by the squared norm. |
| RotationInt.CompInvUndoesComp | sw/airborne/math/pprz_algebra_int.h:571-584 | For every a and every b of norm 1.0, INT32_QUAT_COMP_INV after INT32_QUAT_COMP gives each component of a back between 2 less and 1 more. |
| RotationInt.SumOfProductsFits | sw/airborne/math/pprz_algebra_int.h:571-576 | For quaternions of norm at most 1.0 no sum of the products leaves 32 bits. |
| RotationInt.TruncDivision | sw/airborne/math/pprz_algebra_int.h:625-627 | Quotient and remainder of the division recompose the sum, the remainder being smaller than the divisor and of the sum's sign. |
| RotationInt.IncrementParts | sw/airborne/math/pprz_algebra_int.h:620-623 | What is added to the remainders is the quaternion composed with the rates. |
| RotationInt.NextCarries | sw/airborne/math/pprz_algebra_int.h:619-641 | One step moves whole units to the quaternion and keeps exactly the rest. |
| RotationInt.IntegrationLosesNothing | sw/airborne/math/pprz_algebra_int.h:619-641 | Over any run, with D = 2*f*2^12, D*q + hr is its initial value plus the exact sum of all increments, and every remainder is smaller than D. |
| RotationInt.Integrator.IntegrateFi | sw/airborne/math/pprz_algebra_int.h:619-641 | The in-place update of q and hr is that step. |
| PlaneWorld.CodeWorldIsFaithful | sw/airborne/state.c:64-584 | The assumption made on conversions holds of those of the code, over the reals: through tangent planes with an orthogonal matrix, and with nothing asked of the derived float plane or one never set. LLA and UTM are represented by simpler coordinates. |
| PlaneWorld.GrownIsImproper | sw/airborne/state.h:445 | The derived float plane is never one of those, nor the plane it is derived from. |
| StateCache.SourcedIff | sw/airborne/state.c:64-584 | For every getter, status word, frame, pair of planes and pair of zones: the table of sources is right. It holds exactly when the chain of conditions ends in conversions that keep the place, and the table of blank cases exactly when it ends in none. |
| StateCache.SourcedGetterDenotes | sw/airborne/state.c:64-584 | A getter that has a source leaves every marked representation on the place the marked ones were of. |
| StateCache.UnsourcedStrays | sw/airborne/state.c:64-584 | A getter that has no source and looks at something marked makes exactly one conversion that does not keep the place. |
| StateCache.StrayPathLands | sw/airborne/state.c:64-584 | What is stored up to that conversion is of the old place, and everything from it on of the place where it lands. |
| StateCache.GetterDenotesIff | sw/airborne/state.c:64-584 | For every getter, status and frame, all marked representations agree after it if and only if it had a source, or the place it read instead, that of its own old field or where its one stray conversion lands, is theirs. |
| StateCache.KindsAreComplete | sw/airborne/state.c:64-584 | A getter has no source if and only if it looks at nothing marked, converts its own field, takes NED through a tangent plane they are not relative to, takes integer LLA in the wrong unit, takes float ECEF or LLA through a float plane that differs from the integer one, or takes a UTM position from an origin in another zone. |
| StateCache.KindsAreDistinct | sw/airborne/state.c:64-584 | It never does two of these. |
| StateCache.BlankReads | sw/airborne/state.c:90-95 | Looking at nothing marked it only sets its bit, which is right exactly if its field held a value of the place already. |
| StateCache.LlaFloatRightIff | sw/airborne/state.c:548-550 | With the integer LLA bit set, the float LLA getter is right exactly if its own old value, taken for an integer one, is of the place. |
| StateCache.ForeignReads | sw/airborne/state.c:70-77 | A getter that takes NED coordinates to ECEF or LLA while no plane is set, or through the differing float one, is right exactly if the ECEF coordinates that come out are of the place. |
| StateCache.WrongUnitReads | sw/airborne/state.c:132-134 | Taking integer LLA to integer NED or ENU is right exactly if the centimetres, read in Q8 metres, are of the place. |
| StateCache.SkewedReads | sw/airborne/state.c:391-402 | A getter of local coordinates that goes through the differing float plane is right exactly if the coordinates that come out are those of the place in the integer plane. |
| StateCache.OtherZoneReads | sw/airborne/state.c:423-442 | In a UTM frame, taking a position whose UTM zone is not that of the origin is right exactly if the difference of the two happens to be of the place. |
| StateCache.UnsourcedGetterCanFail | sw/airborne/state.c:64-584 | The table of sources leaves out nothing: for every status, frame, planes alike or not and zones alike or not without a source there are a faithful world and values, right in every marked field, with which the getter fails. |
| StateCache.GetterExtends | sw/airborne/state.c:64-584 | A getter sets its bit, clears none, and changes no representation whose bit was set, nor the frames, except in one case. |
| StateCache.RewritingGetterExtendsIff | sw/airborne/state.c:415-423 | That case, float NED in a UTM frame with both ENU bits set and no NED bit: the float ENU value is overwritten by the converted integer one, so it is kept only if it equalled it. |
| StateCache.PathIsFresh | sw/airborne/state.c:64-584 | No getter converts into a representation whose bit is set, exactly outside that case. |
| StateCache.LlaFloatIgnoresPosition | sw/airborne/state.c:548-550 | With the integer LLA bit set the float LLA getter converts its own old value: its result does not depend on the position. |
| StateCache.LlaFloatRightForOnePlaceOnly | sw/airborne/state.c:548-550 | So of two positions at different places it is wrong for one at least. |
| StateCache.AllowedStepKeeps | sw/airborne/state.c:64-584 | A setter, a new UTM origin, a new tangent plane with an orthogonal matrix, and a getter that has a source keep every marked representation on the place last set; the getter leaves those marked before unchanged outside the one case. |
| StateCache.EveryRunDenotes | sw/airborne/state.c:64-584 | So does any sequence of them, from any start and in any frame: getters of all kinds where they have a source, positions set in any representation, UTM origins and tangent planes with an orthogonal matrix set at any time. |
| PlaneWorld.EveryRunOfCodeDenotes | sw/airborne/state.c:43-584 | In particular any from zeroed storage, with the conversions of the code. |
| StateCache.EveryIntegerRunIsAllowed | sw/airborne/state.c:64-325 | In a tangent plane, integer getters, positions set as integer ECEF or NED, and origins set while integer ECEF is marked always have a source, whatever the float plane is. |
| StateCache.EveryAnchoredRunIsAllowed | sw/airborne/state.c:64-584 | Were the float plane the integer one, all getters but two would always have one, with positions set as ECEF or NED, integer or float. |
| StateCache.EveryZoneRunIsAllowed | sw/airborne/state.c:143-542 | In a UTM frame, positions set in UTM in the zone of the origin and local getters always have one. |
| PlaneWorld.FloatPlaneInput | sw/airborne/state.h:440-456 | A failing run for every plane and place: the origin is set, then a position as float ECEF, and the NED getter, float or integer, gives 64 times the offset; it is right only at the origin. |
| PlaneWorld.FloatPlaneBackInput | sw/airborne/state.c:356-358 | The other way: the origin is set, then a position as float NED, and the float ECEF getter gives 64 times the offset; it is right only at the origin. |
| PlaneWorld.ZoneInput | sw/airborne/state.c:428-433 | A failing run: a UTM origin is set and a position in LLA, and the float NED getter is right only if the origin is in zone 0. |
| PlaneWorld.NedBeforeLlaInput | sw/airborne/state.c:560-565 | A failing run: a position is set in UTM, NED is asked for and then LLA, which takes the NED coordinates through a tangent plane never set and gets the centre of the earth; asked for first it is right. |
| StateCache.MoveDenotes | sw/airborne/state.h:440-468 | Setting an origin keeps the representations still marked on their place. |
| StateCache.MovingOriginForgets | sw/airborne/state.h:449-450 | Setting it while only local coordinates are marked forgets the position: each getter then marks what its field held, right only if that was of the place. |
| StateCache.SetDenotes | sw/airborne/state.h:501-588 | After a setter the one marked representation is the value set. |
| FloatPlane.EnuIs64Times | sw/airborne/state.h:440-446 | The float plane divides by 2^14 a matrix that has 20 fractional bits, so every offset comes out of the conversions to ENU and NED 64 times as large as in the plane the integer conversions compute with. |
| FloatPlane.EcefIs64Times | sw/airborne/state.h:440-446 | And so it does of those back to ECEF. |
| FloatPlane.RoundTripIs4096Times | sw/airborne/state.h:440-446 | There and back, the offset is 4096 times what the integer plane makes of it. |
| FloatPlane.AgreeIffTakenToZero | sw/airborne/state.h:445 | The two conversions of a point agree exactly if the matrix takes its offset to 0. |
| FloatPlane.AgreeIffAtOrigin | sw/airborne/state.h:445 | For a nearly orthogonal matrix that is at the origin of the plane and nowhere else. |
| FloatPlane.AgreeIffAtOriginAnywhere | sw/airborne/math/pprz_geodetic_int.c:48-56 | So it is at every latitude and longitude. |
| FloatPlane.AgreeBackIffTakenToZero | sw/airborne/state.h:445 | Those back to ECEF agree exactly if the transposed matrix takes the local coordinates to 0, |
| FloatPlane.AgreeBackIffAtOrigin | sw/airborne/state.h:445 | which for a nearly orthogonal matrix is at 0 and nowhere else, |
| FloatPlane.AgreeBackIffAtOriginAnywhere | sw/airborne/math/pprz_geodetic_int.c:48-56 | at every latitude and longitude. |
| FloatPlane.IntegerPlaneIsItsOwn | sw/airborne/math/pprz_geodetic_int.c:93-113 | The integer conversion gives the coordinates in the integer plane, in centimetres, rounded down. |
| StateCache.State.constructor | sw/airborne/state.c:43-53 | Nothing is marked and no frame is set at the start. |
| StateCache.State.CalcPositionEcefI | sw/airborne/state.c:64-96 | The body of this getter, statement by statement, follows the path of conversions the status selects. |
| StateCache.State.CalcPositionNedI | sw/airborne/state.c:98-188 | The same for this getter, in either frame and in none. |
| StateCache.State.CalcPositionEnuI | sw/airborne/state.c:190-280 | The same for this getter. |
| StateCache.State.CalcPositionLlaI | sw/airborne/state.c:282-325 | The same for this getter. |
| StateCache.State.CalcPositionUtmF | sw/airborne/state.c:327-347 | The same for this getter. |
| StateCache.State.CalcPositionEcefF | sw/airborne/state.c:349-380 | The same for this getter, which sets the float bit where it has filled the integer field. |
| StateCache.State.CalcPositionNedF | sw/airborne/state.c:382-457 | The same for this getter. |
| StateCache.State.CalcPositionEnuF | sw/airborne/state.c:459-542 | The same for this getter. |
| StateCache.State.CalcPositionLlaF | sw/airborne/state.c:544-584 | The same for this getter, its conversion of the wrong field included. |
| StateCache.State.GetPosition | sw/airborne/state.h:623-683 | A get fills in the representation if its bit is not set and returns it. |
| StateCache.State.SetPosition | sw/airborne/state.h:501-588 | A set stores the value, in UTM its zone, too, and leaves its bit alone set. |
| StateCache.State.SetLocalOrigin | sw/airborne/state.h:440-456 | Setting the origin stores it and the float plane derived from it, and clears the bits of the local representations and no others. |
| StateCache.State.SetLocalUtmOrigin | sw/airborne/state.h:459-468 | The same for a UTM origin and its zone. |
| SpiCrc.BitStepLinear | sw/airborne/fms/fms_spi_link.c:82-85 | One turn of the bit loop is linear over XOR. |
| SpiCrc.BitStepOneToOne | sw/airborne/fms/fms_spi_link.c:82-85 | And takes only 0 to 0. |
| SpiCrc.CrcLinear | sw/airborne/fms/fms_spi_link.c:77-89 | The CRC of the XOR of two frames is the XOR of their CRCs. |
| SpiCrc.SealPasses | sw/airborne/fms/fms_spi_link.c:57-62 | A sealed frame passes the receiver's test with its payload unchanged, and a frame passes exactly if sealing leaves it as it is. |
| SpiCrc.PassesIffRemainderZero | sw/airborne/fms/fms_spi_link.c:61-62 | A frame passes exactly if its CRC, check byte included, is 0. |
| SpiCrc.MissedIffErrorPasses | sw/airborne/fms/fms_spi_link.c:57-67 | An error is missed if and only if its own pattern has CRC 0. |
| SpiCrc.StraddleLeavesRemainder | sw/airborne/fms/fms_spi_link.c:77-89 | Eight bits across a byte boundary leave a remainder unless all are 0. |
| SpiCrc.BurstRejected | sw/airborne/fms/fms_spi_link.c:57-67 | Every non-zero error within eight consecutive bits, across a byte boundary too, is rejected, in frames of any length. |
| SpiCrc.OddWeightRejected | sw/airborne/fms/fms_spi_link.c:57-67 | Every error that flips an odd number of bits is rejected. |
| SpiCrc.CycleOf127 | sw/airborne/fms/fms_spi_link.c:74-86 | Doubling 1 with reduction comes back to 1 exactly after multiples of 127 turns. |
| SpiCrc.CrcOfOneBit | sw/airborne/fms/fms_spi_link.c:77-89 | One wrong bit leaves 1 doubled once for each bit behind it and eight times more. |
| SpiCrc.TwoBitsMissedIff | sw/airborne/fms/fms_spi_link.c:57-67 | Two wrong bits are missed if and only if their distance is a multiple of 127. |
| SpiCrc.CrcCalcBlock | sw/airborne/fms/fms_spi_link.c:77-89 | The two nested loops compute that CRC. |
| SpiCrc.SpiLink.Send | sw/airborne/fms/fms_spi_link.c:44-71 | An exchange sends the sealed frame, delivers what was received, tells whether it passes, and counts messages and errors in 32 bits. |
| InterMcu.Parsed | sw/airborne/link_mcu_usart.c:163-234 | Any byte keeps the parser's invariant: the buffer index stays inside, and a message waiting is not being overwritten. |
| InterMcu.WaitingMessageSurvives | sw/airborne/link_mcu_usart.c:181-185 | A message not yet taken survives every further byte. |
| InterMcu.ReadAppends | sw/airborne/link_mcu_usart.c:163-234 | Reading a stream in two parts is reading it whole. |
| InterMcu.ReadFrame | sw/airborne/link_mcu_usart.c:163-234 | A frame met between messages is delivered exactly if both its check bytes are right, and otherwise is dropped and counted as one error. |
| InterMcu.ReadSentFrame | sw/airborne/link_mcu_usart.c:49-66 | A frame as sent is delivered as that one message. |
| InterMcu.ReadStream | sw/airborne/link_mcu_usart.c:163-234 | From a stream of frames and noise without 0xB5, exactly the messages sent are read, whole, in order and without one error. |
| InterMcu.DrainReads | sw/airborne/link_mcu_usart.c:344-352 | One call of the task takes from the line what a reader of the whole line would read first. |
| InterMcu.EveryRunIsCoherent | sw/airborne/link_mcu_usart.c:342-353 | For any bytes and any split of them over calls of the task, no message waits between calls, so the overrun branch is not reached, and what is delivered does not depend on the split. |
| InterMcu.CleanRunDelivers | sw/airborne/link_mcu_usart.c:342-353 | For any split of a clean stream, the messages delivered are those sent once all bytes are parsed, and no error is counted. |
| InterMcu.PartialRunDelivers | sw/airborne/link_mcu_usart.c:342-353 | Before that they are the first ones sent. |
| InterMcu.TasksEmptyTheLine | sw/airborne/link_mcu_usart.c:344-347 | As many calls as bytes wait parse them all. |
| InterMcu.CksFollowDeltas | sw/airborne/link_mcu_usart.c:49-54 | How both check bytes change with the bytes they cover. |
| InterMcu.TwoChangesAcceptedIff | sw/airborne/link_mcu_usart.c:212-223 | A frame with two of its class, id and payload bytes changed is accepted if and only if the changes cancel modulo 256 and the first of them times their distance is 0 modulo 256; otherwise it is counted as an error and nothing is delivered. |
| InterMcu.OddDistanceRejected | sw/airborne/link_mcu_usart.c:212-223 | Two changed bytes at an odd distance are always rejected and counted. |
| InterMcu.OneChangeRejected | sw/airborne/link_mcu_usart.c:212-223 | One changed byte is always rejected and counted. |
| InterMcu.ShortDeclarationAcceptedIff | sw/airborne/link_mcu_usart.c:108-116 | A frame that carries one byte more than it declares is delivered, cut short, only if that byte happens to equal the first check byte and the sum then equals the second. |
| InterMcu.ZeroFbwMessageLost | sw/airborne/link_mcu_usart.c:108-116 | The fly-by-wire message, which declares 6 bytes and carries 7, is lost when its fields are 0. |
| InterMcu.IntermcuData.Parse | sw/airborne/link_mcu_usart.c:163-234 | The byte-by-byte update of the structure is that of the parser's state machine. |
| InterMcu.IntermcuData.EventTask | sw/airborne/link_mcu_usart.c:342-353 | The task parses while bytes are there and no message waits, then takes the message. |
| InterMcu.Sender.Header | sw/airborne/link_mcu_usart.c:59-66 | The header macro sends the sync bytes and the header and starts the sums. |
| InterMcu.Sender.SendMessage | sw/airborne/link_mcu_usart.c:49-66 | The macros put exactly one frame on the line. |
| UdpTransport.StepKeepsValid | sw/airborne/fms/udp_transport2.c:53-62 | Between calls at most 1024 bytes are buffered, and with a message more never 1280, so the 1496-byte buffer cannot overflow. |
| UdpTransport.Run | sw/airborne/fms/udp_transport2.c:45-91 | This holds in every run. |
| UdpTransport.EveryRunConserves | sw/airborne/fms/udp_transport2.c:45-91 | In every run the messages in the datagrams written, then those buffered, are exactly the messages sent, in order; each datagram is whole messages. |
| UdpTransport.StepOfBytes | sw/airborne/fms/udp_transport2.c:53-62 | In bytes: a message is appended, and the whole buffer written if it is over the watermark. |
| UdpTransport.Writer.PutBytes | sw/airborne/fms/udp_transport2.c:25-32 | The loop appends the bytes and adds them to both sums. |
| UdpTransport.Writer.Header | sw/airborne/fms/udp_transport2.c:34-43 | The header is the start byte, the length with its overhead in one byte, and the timestamp, the sums starting at the length. |
| UdpTransport.Writer.StartMessage | sw/airborne/fms/udp_transport2.c:45-51 | Starting a message appends its frame up to the payload, for any length declared; from 246 on the length byte wraps. |
| UdpTransport.Writer.EndMessage | sw/airborne/fms/udp_transport2.c:53-62 | Ending it appends the sums and flushes above the watermark. |
| UdpTransport.Writer.Periodic | sw/airborne/fms/udp_transport2.c:84-91 | The periodic flush writes what is buffered, if anything. |
| UdpTransport.Writer.PutMessage | sw/airborne/fms/udp_transport2.c:25-62 | A message put in any number of pieces appends exactly its frame. |
| UdpTransport.Writer.SendMessage | sw/airborne/fms/udp_transport2.c:25-62 | And is one step of the batches. |
| OnboardLogger.GotPprzMessage | sw/airborne/fms/onboard_logger.c:11-44 | The checksum loop and the extraction give the line of that message. |
| OnboardLogger.GotPacket | sw/airborne/fms/onboard_logger.c:76-88 | The loop over the datagram gives the lines of its messages. |
| OnboardLogger.FrameRecord | sw/airborne/fms/onboard_logger.c:22-41 | The line of a frame of the writer shows its fields and payload, the checksums matching. |
| OnboardLogger.SplitFrames | sw/airborne/fms/onboard_logger.c:76-88 | From the start of any frames in the capture, exactly their lines are printed, then what follows them is looked at. |
| OnboardLogger.SplitBehind | sw/airborne/fms/onboard_logger.c:71-84 | The length counts the UDP header, so eight bytes behind the datagram are looked at too: they give no line exactly if they are quiet, no 0x98 reached among them being followed by a length that fits. |
| OnboardLogger.DatagramSplits | sw/airborne/fms/onboard_logger.c:71-88 | A datagram of the writer gives first a line for each of its messages, in order, whatever bytes follow it; and no others if and only if those bytes are quiet. |
| OnboardLogger.LoggedRun | sw/airborne/fms/onboard_logger.c:46-89 | Over any run of the writer the lines printed for its datagrams, then those its buffer will give, are exactly those of the messages sent, in order, if and only if the bytes behind every datagram are quiet. |
| MedianFilter.SortIsSortedPermutation | sw/airborne/filters/median_filter.h:64-72 | The insertion sort gives a sorted permutation. |
| MedianFilter.MedianAtMostIff | sw/airborne/filters/median_filter.h:73-74 | For every m, the median is at most m exactly if more than half of the samples are. |
| MedianFilter.MajorityDecides | sw/airborne/filters/median_filter.h:73-74 | An interval that holds more than half of the samples holds the median, for windows of any size. |
| MedianFilter.MedianOfPermutation | sw/airborne/filters/median_filter.h:61-74 | The median does not depend on the order of the samples. |
| MedianFilter.WindowSlides | sw/airborne/filters/median_filter.h:54-60 | One more input drops the oldest sample of the window; before the start the window is zeros. |
| MedianFilter.InsertionSort | sw/airborne/filters/median_filter.h:64-72 | The in-place loops sort the array. |
| MedianFilter.InsertNext | sw/airborne/filters/median_filter.h:65-71 | The inner loop moves one element to its place among the sorted ones before it. |
| MedianFilter.Filter.constructor | sw/airborne/filters/median_filter.h:41-48 | A new filter has seen no input. |
| MedianFilter.Filter.Push | sw/airborne/filters/median_filter.h:53-60 | Writing round robin slides the window. |
| MedianFilter.Filter.Update | sw/airborne/filters/median_filter.h:50-76 | After any number of inputs the update returns the median of the last N of them, zeros standing for those before the start, and sortData is their sorted permutation. |
| MedianFilter.Filter.Get | sw/airborne/filters/median_filter.h:78-80 | Reading returns the same median. |
| GeodeticInt.CmRoundTrip | sw/airborne/math/pprz_geodetic_int.c:134-136 | Scaling centimetres to Q8 metres and back gives c back exactly if c <= 0 or 25 divides c, and otherwise c - 1. |
| GeodeticInt.BackFromRounded | sw/airborne/math/pprz_geodetic_int.c:175-192 | The way back through the transposed matrix, from coordinates rounded down by less than k units, is off by less than 2k+1 units and what the matrix is off. |
| GeodeticInt.VectRoundTrip | sw/airborne/math/pprz_geodetic_int.c:150-192 | If M'M is within eps of 2^40 I and 3 eps < 2^40, a vector to ENU and back changes in each component by less than 3 + eps*(abs x + abs y + abs z)/2^40. |
| GeodeticInt.PointRoundTrip | sw/airborne/math/pprz_geodetic_int.c:93-223 | The same for points relative to an origin, and NED gives the very same result as ENU. |
| GeodeticInt.PosRoundTrip | sw/airborne/math/pprz_geodetic_int.c:125-253 | With positions in Q8 metres the bound is 5 in place of 3, for ENU and NED. |
| GeodeticInt.MatrixIsNearlyOrthogonal | sw/airborne/math/pprz_geodetic_int.c:48-56 | For sines and cosines rounded to Q20, the matrix both constructions build is within 9*2^20 of orthogonal. |
| GeodeticInt.AxesPointEastNorthUp | sw/airborne/math/pprz_geodetic_int.c:48-56 | At the equator on the prime meridian, a quarter turn east of there and at the north pole, the conversion renames the axes to east, north and up exactly. |
| GeodeticInt.ZenithIsUp | sw/airborne/math/pprz_geodetic_int.c:48-56 | At every latitude and longitude, given as sines and cosines rounded to Q20, the direction of the zenith goes to up: nothing of it to the east, and to (0, 0, 1) within 6 parts in 2^20. |
| GeodeticInt.MeridianIsNorth | sw/airborne/math/pprz_geodetic_int.c:48-56 | The direction along the meridian goes to north as closely, with nothing to the east. |
| GeodeticInt.ParallelIsEast | sw/airborne/math/pprz_geodetic_int.c:48-56 | The direction along the parallel goes to east within 2 parts in 2^20. |
| GeodeticInt.PointIsPosIff | sw/airborne/math/pprz_geodetic_int.c:93-148 | The conversion of a point, which gives centimetres, agrees with that of a position, which gives Q8 metres, exactly where both are 0; the state cache uses the one for the other. |
| GeodeticInt.PosRoundTripAnywhere | sw/airborne/math/pprz_geodetic_int.c:48-56 | So at every latitude and longitude the position round trip is off by less than 5 cm and 9 cm for each 2^20 cm from the origin. |
| SwarmGcs.Swarm.constructor | GCS/Swarm.cpp:27-34 | All quads start as killed. |
| SwarmGcs.Swarm.SetQuadState | GCS/Swarm.cpp:60-71 | A report moves the timestamp on, from the largest to 0, and stores the state: the two steps of the report handler in the station's interleavings. |
| SwarmGcs.Swarm.AllInState | GCS/Swarm.cpp:87-99 | The scan tells whether all quads are in the state. |
| SwarmGcs.NextKeepsInv | GCS/Ground_Station.cpp:605-823 | Every step of every thread and of the report handler keeps the station's invariant. |
| SwarmGcs.Run | GCS/Ground_Station.cpp:605-823 | So it holds after every interleaving. |
| SwarmGcs.MutualExclusion | GCS/Ground_Station.cpp:306-342 | In every interleaving at most one command thread is between taking and releasing GCS_busy, and at most one thread inside wait_all_quads. |
| SwarmGcs.ExecuteAckOnlyWhenReady | GCS/Ground_Station.cpp:605-634 | An execute ack 0xfd is sent only by the thread that holds GCS_busy, after it read every quad in WAIT_EXEC_ACK since it took that lock. |
| SwarmGcs.KillPassSkipsTheLast | GCS/Ground_Station.cpp:1000-1007 | Before it waits the kill handler sends the kill command to every quad but the last, once each. |
| SwarmGcs.LastQuadKilledInWaitOnly | GCS/test_GCS.cpp:13-19 | In every interleaving it sends nothing but kill commands, and the last quad gets one only from inside wait_all_quads. |
| SwarmGcs.AdvanceBalanced | GCS/Ground_Station.cpp:667-813 | One step of a waiting thread keeps the count of commands against reports. |
| SwarmGcs.CountedKeepsOk | GCS/Swarm.cpp:63-66 | A report, wrapping timestamps included, keeps it too. |
| SwarmGcs.SendsAreGated | GCS/Ground_Station.cpp:647-823 | In each wait but the one for execution, a quad is sent at most one command more than reports of it came in. |
| SwarmGcs.AdvanceHistory | GCS/Ground_Station.cpp:605-823 | The history these statements speak of is what a thread did. |
| SwarmGcs.OwnHistoryIsTrue | GCS/Ground_Station.cpp:605-823 | A quad is seen as ready only by a read under the lock, and sends are counted one by one from the start of the wait. |
| SwarmGcs.OtherHistoryIsTrue | GCS/Ground_Station.cpp:1108 | Each report is counted once, and nothing else touches the history. |
| SwarmGcs.ExecuteAckIgnoresState | GCS/Ground_Station.cpp:767 | The condition for sending the ack again excludes no state: it goes out whenever the timer allows. |
| SwarmGcs.LateAck | GCS/Ground_Station.cpp:765-772 | So a quad that has begun to execute can be sent the ack. |
| SwarmGcs.LateAckIsReachable | GCS/Ground_Station.cpp:605-634 | And runs do come to where that happens. |

## Left out

- Hardware, sockets, serial ports, GTK, Ivy, pcap, simulators and board headers: only the logic between them is modelled.
- Floating-point rounding: the vertical filter and the float rotations are over the reals.
- Spistream.Endpoint.EnqueueMsg: asks that the 16-bit package counter does not pass 65535, which the code does not check; it takes more than 65535 packages queued in a ring of far fewer slots.
- Spistream.Resynchronise: for packages whose countdowns lie between -32 and 22, like Spistream.RxRead and Spistream.RxRun; a larger one would have its bytes copied outside the receive buffer, and no sender makes a smaller one.
- Spistream.Endpoint.ReadPkg: asks that the package's 32 bytes land inside the 720-byte receive buffer, which the code does not check; packages of messages of at most 704 bytes do.
- SpistreamLink.EveryRunIsEndToEnd: for messages of at most 704 bytes whose packages fit the free slots, the condition of Spistream.EnqueueIntactIffFits.
- RotationInt.CompInvUndoesComp: over unbounded integers; RotationInt.SumOfProductsFits says when the composition stays in 32 bits.
- RotationInt.Integrator.IntegrateFi: over unbounded integers; the remainders stay below D, the products of rates and components are taken to fit.
- GeodeticInt.PosRoundTrip: over unbounded integers; the shift by 6 bits fits 32 bits up to 335 km from the origin, as the source's comment says.
- GeodeticInt.MatrixIsNearlyOrthogonal: takes of sinf, cosf and rint only that each pair is at most 1 and its squares add up to 1 within 2*2^-20.
- StateCache.EveryRunDenotes: the conversions that are sound keep the place exactly, and the tangent planes set have an orthogonal matrix, so the rounding between integer and float representations and that of the matrix (bounded in GeodeticInt) are not modelled, nor how far a UTM projection is good outside its zone.
- PlaneWorld.CodeWorldIsFaithful: LLA stands for ECEF coordinates and UTM for a shift by the zone; the formulas of the ellipsoid and the projection are not part of this model.
- StateCache.State.SetPosition: one representation at a time; stateSetPosition_i and stateSetPosition_f, which take several, would add only easy members.
- StateCache: the groups for speed, acceleration, rates, attitude and wind, some of whose getters set bits of the position status.
- SpiCrc.SpiLink.Send: the length is at most 2^32 - 1, the range of the driver's length and of the CRC function's parameter; opening and configuring the device is left out, and the driver's return value.
- The table-driven CRC that is compiled out.
- InterMcu.CleanRunDelivers: noise is any bytes but 0xB5; a 0xB5 in noise can begin a false frame.
- The decoding of inter-MCU payloads (commands, radio channels, trims): frames only.
- UdpTransport.Writer.SendMessage: the bytes put are as many as declared and at most 245, which the code does not check (UdpTransport.Writer.StartMessage takes any declared length, in one byte); the uplink parser of the same header is left out.
- OnboardLogger.GotPacket: the capture reaches four bytes past the UDP length; Ethernet and IP headers are not parsed.
- MedianFilter.Filter.Update: the loop tests the index before it reads the element; the source reads first, one place before the array, and does not use the value. The filters of three components are three of these.
- SwarmGcs.Run: each read, write, lock operation and send is one atomic step; positions, the reference point and the contents of targets are not modelled, nor that the signal handler runs on a thread that may hold a lock. Nothing is claimed about progress.
- The quadcopters' side of the swarm protocol: their reports are arbitrary. The XBee layer, its checksum and its chunking are not part of this model.
- The telemetry ring of sw/airborne/lisa/lisa_overo_link.c and agl_vfilter.c, which repeats the prediction and the altitude update of alt_vfilter.c.
